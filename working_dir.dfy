/** The start-up working-directory rule of the application
    (Window/main.cpp, wWinMain): when the current directory lies inside
    the build output ("...\x64\Debug" and the like), the directory is cut
    just before the first "x64" and the application title is appended,
    so that the program runs from its project folder. The Win32 calls
    that read and set the directory are not modelled: the directory is
    an input string and the directory to set is the result. */
module WorkingDir {

  datatype Option<T> = None | Some(value: T)

  /** The marker of the build output folder. */
  const ConfigMarker: string := "x64"

  /** `pat` occurs in `s` starting at position `pos`. */
  predicate OccursAt(s: string, pat: string, pos: nat)
  {
    pos + |pat| <= |s| && s[pos..pos + |pat|] == pat
  }

  /** The first position at or after `from` where `pat` occurs
      (std::wstring::find with a start position); None when there is none. */
  function FindFrom(s: string, pat: string, from: nat): (r: Option<nat>)
    ensures r.Some? ==> from <= r.value && OccursAt(s, pat, r.value)
    ensures r.Some? ==> forall p: nat :: from <= p < r.value ==> !OccursAt(s, pat, p)
    ensures r.None? ==> forall p: nat :: from <= p ==> !OccursAt(s, pat, p)
    decreases |s| - from
  {
    if from + |pat| > |s| then None
    else if OccursAt(s, pat, from) then Some(from)
    else FindFrom(s, pat, from + 1)
  }

  /** The first position where `pat` occurs in `s`. */
  function Find(s: string, pat: string): (r: Option<nat>)
    ensures r.Some? ==> OccursAt(s, pat, r.value) && forall p: nat :: p < r.value ==> !OccursAt(s, pat, p)
    ensures r.None? <==> forall p: nat :: !OccursAt(s, pat, p)
  {
    FindFrom(s, pat, 0)
  }

  /** The directory the application switches to, or None when the
      current directory `dir` contains no "x64" and is left as it is. */
  function RewriteWorkingDir(dir: string, title: string): (r: Option<string>)
    ensures r.None? <==> forall p: nat :: !OccursAt(dir, ConfigMarker, p)
    ensures r.Some? ==> exists pos: nat :: OccursAt(dir, ConfigMarker, pos) &&
                         (forall q: nat :: q < pos ==> !OccursAt(dir, ConfigMarker, q)) &&
                         r.value == dir[..pos] + title
  {
    match Find(dir, ConfigMarker)
    case None => None
    case Some(configPos) => Some(dir[..configPos] + title)
  }

  /** The new directory is as long as the part of `dir` before the first
      "x64" plus the title, begins with that part of `dir`, and ends with
      the title. */
  lemma RewriteShape(dir: string, title: string, pos: nat)
    requires OccursAt(dir, ConfigMarker, pos)
    requires forall q: nat :: q < pos ==> !OccursAt(dir, ConfigMarker, q)
    ensures RewriteWorkingDir(dir, title).Some?
    ensures |RewriteWorkingDir(dir, title).value| == pos + |title|
    ensures RewriteWorkingDir(dir, title).value[..pos] == dir[..pos]
    ensures RewriteWorkingDir(dir, title).value[pos..] == title
  {
    assert Find(dir, ConfigMarker) == Some(pos);
  }

  /** An occurrence inside a prefix of `s` is an occurrence in `s`. */
  lemma OccursInPrefix(s: string, pat: string, n: nat, q: nat)
    requires n <= |s| && OccursAt(s[..n], pat, q)
    ensures OccursAt(s, pat, q) && q + |pat| <= n
  {
    assert s[..n][q..q + |pat|] == s[q..q + |pat|];
  }

  /** The cut is at the leftmost "x64": the part of the directory that is
      kept contains no "x64" at all. */
  lemma KeptPrefixHasNoMarker(dir: string, title: string)
    requires RewriteWorkingDir(dir, title).Some?
    ensures var pos := Find(dir, ConfigMarker).value;
            forall q: nat :: !OccursAt(dir[..pos], ConfigMarker, q)
  {
    var pos := Find(dir, ConfigMarker).value;
    forall q: nat ensures !OccursAt(dir[..pos], ConfigMarker, q) {
      if OccursAt(dir[..pos], ConfigMarker, q) {
        OccursInPrefix(dir, ConfigMarker, pos, q);
      }
    }
  }
}
