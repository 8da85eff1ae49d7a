/**
 * The filter used when walking the input directories: it keeps
 * directories, except Subversion's `.svn`, and files named `*.java`.
 */
module FileFilter {

  /** What the filter looks at: the last component of the path, and whether it is a directory. */
  datatype FileEntry = FileEntry(name: string, isDirectory: bool)

  predicate EndsWith(s: string, suffix: string) {
    |suffix| <= |s| && s[|s| - |suffix|..] == suffix
  }

  /** `JavaFileFilter.accept`. */
  function Accept(f: FileEntry): (r: bool)
    ensures f.isDirectory && f.name != ".svn" ==> r
    ensures f.isDirectory && f.name == ".svn" ==> !r
    ensures !f.isDirectory ==> (r <==> EndsWith(f.name, ".java"))
  {
    if f.isDirectory && f.name != ".svn" then true
    else if EndsWith(f.name, ".java") then true
    else false
  }
}
