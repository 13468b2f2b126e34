/**
 * The display title of a downloaded file (`get_song_name` in main.py):
 * `re.search('(.*)-.*', filename)`, then `re.sub('_', " ", group(1))`, or
 * `"Wakarimasen! " + filename` when the search finds nothing.
 *
 * The search is modelled with Python's own semantics: `.` matches every
 * character except a line feed, so the match lies inside one line, and
 * the greedy `(.*)` stretches to the last `-` of the first line that has one.
 */
module SongName {
  import opened Optional

  const Fallback: string := "Wakarimasen! "

  /** The first position of `c` in `s`. */
  function IndexOf(s: string, c: char): (r: Option<nat>)
    ensures r.None? <==> c !in s
    ensures r.Some? ==> r.value < |s| && s[r.value] == c && c !in s[..r.value]
  {
    if |s| == 0 then None
    else if s[0] == c then Some(0)
    else
      match IndexOf(s[1..], c)
      case None => assert s == [s[0]] + s[1..]; None
      case Some(k) => assert s[..k + 1] == [s[0]] + s[1..][..k]; Some(k + 1)
  }

  /** The last position of `c` in `s`. */
  function LastIndexOf(s: string, c: char): (r: Option<nat>)
    ensures r.None? <==> c !in s
    ensures r.Some? ==> r.value < |s| && s[r.value] == c && c !in s[r.value + 1..]
  {
    if |s| == 0 then None
    else if s[|s| - 1] == c then Some(|s| - 1)
    else
      assert s == s[..|s| - 1] + [s[|s| - 1]];
      match LastIndexOf(s[..|s| - 1], c)
      case None => None
      case Some(k) => assert s[k + 1..] == s[..|s| - 1][k + 1..] + [s[|s| - 1]]; Some(k)
  }

  /** The first line of `s`: everything before the first line feed. */
  function FirstLine(s: string): (line: string)
    ensures '\n' !in line
    ensures line == s || (|line| < |s| && s[|line|] == '\n')
    ensures line <= s
  {
    match IndexOf(s, '\n')
    case None => s
    case Some(n) => s[..n]
  }

  /**
   * Group 1 of `re.search('(.*)-.*', s)`, or None when the search fails.
   * Python tries each start position in turn; from a line start, `(.*)-`
   * succeeds exactly when that line holds a `-`, and a start inside a line
   * without one (or on its line feed) fails, so the first line that holds
   * a `-` decides, and the greedy group ends at its last `-`.
   */
  function SearchGroup(s: string): (g: Option<string>)
    ensures g.None? <==> '-' !in s
    ensures g.Some? ==> |g.value| < |s| && '\n' !in g.value
    decreases |s|
  {
    var line := FirstLine(s);
    match LastIndexOf(line, '-')
    case Some(k) => Some(line[..k])
    case None =>
      if line == s then None
      else
        assert s == line + [s[|line|]] + s[|line| + 1..];
        SearchGroup(s[|line| + 1..])
  }

  /** `re.sub('_', " ", s)`: every underscore becomes a space, in place. */
  function ReplaceUnderscores(s: string): (r: string)
    ensures |r| == |s|
    ensures forall i :: 0 <= i < |s| ==> r[i] == (if s[i] == '_' then ' ' else s[i])
  {
    if s == [] then []
    else [if s[0] == '_' then ' ' else s[0]] + ReplaceUnderscores(s[1..])
  }

  /**
   * `get_song_name(filename)` of main.py: the fallback exactly when there is
   * no `-`, otherwise a title shorter than the filename and free of `_`.
   */
  function GetSongName(filename: string): (title: string)
    ensures '-' !in filename ==> title == Fallback + filename
    ensures '-' in filename ==> |title| < |filename| && '_' !in title
  {
    match SearchGroup(filename)
    case Some(prefix) => ReplaceUnderscores(prefix)
    case None => Fallback + filename
  }

  /** In a one-line filename, group 1 is everything before the last `-`. */
  lemma SearchGroupOneLine(s: string, k: nat)
    requires '\n' !in s
    requires k < |s| && s[k] == '-' && '-' !in s[k + 1..]
    ensures SearchGroup(s) == Some(s[..k])
  {
  }

  /**
   * A one-line filename with a `-` gives the part before its LAST `-`,
   * underscores turned into spaces: as long as that part, free of `_`, and
   * equal to it at every position that did not hold `_`.
   */
  lemma SongNameBeforeLastHyphen(filename: string, k: nat)
    requires '\n' !in filename
    requires k < |filename| && filename[k] == '-' && '-' !in filename[k + 1..]
    ensures GetSongName(filename) == ReplaceUnderscores(filename[..k])
    ensures |GetSongName(filename)| == k
    ensures '_' !in GetSongName(filename)
    ensures forall i :: 0 <= i < k && filename[i] != '_' ==> GetSongName(filename)[i] == filename[i]
  {
  }

  /** What follows the last `-` of a one-line filename has no influence on its title. */
  lemma SongNameIgnoresTail(prefix: string, tail: string, other: string)
    requires '\n' !in prefix && '\n' !in tail && '\n' !in other
    requires '-' !in tail && '-' !in other
    ensures GetSongName(prefix + "-" + tail) == GetSongName(prefix + "-" + other)
    ensures GetSongName(prefix + "-" + tail) == ReplaceUnderscores(prefix)
  {
    HyphenThenTail(prefix, tail);
    HyphenThenTail(prefix, other);
  }

  lemma HyphenThenTail(prefix: string, tail: string)
    requires '\n' !in prefix && '\n' !in tail && '-' !in tail
    ensures GetSongName(prefix + "-" + tail) == ReplaceUnderscores(prefix)
  {
    var s := prefix + "-" + tail;
    assert s[|prefix|] == '-';
    assert s[|prefix| + 1..] == tail;
    assert s[..|prefix|] == prefix;
    SongNameBeforeLastHyphen(s, |prefix|);
  }

  /** The fallback title is produced exactly when the filename has no `-`. */
  lemma FallbackIffNoHyphen(filename: string)
    ensures GetSongName(filename) == Fallback + filename <==> '-' !in filename
  {
  }

  /** A one-line filename whose only `-` is its first character has the empty title. */
  lemma LeadingHyphenGivesEmptyTitle(filename: string)
    requires '\n' !in filename
    requires |filename| > 0 && filename[0] == '-' && '-' !in filename[1..]
    ensures GetSongName(filename) == ""
  {
  }

  /**
   * A line feed ends the match: when the first line holds a `-`, whatever
   * follows the line feed is ignored; when it holds none, the title comes
   * from the rest of the filename.
   */
  lemma {:induction false} SongNameFirstLineDecides(line: string, rest: string)
    requires '\n' !in line
    ensures '-' in line ==> GetSongName(line + "\n" + rest) == GetSongName(line)
    ensures '-' !in line && '-' in rest ==> GetSongName(line + "\n" + rest) == GetSongName(rest)
  {
    var s := line + "\n" + rest;
    assert s[..|line|] == line;
    assert s[|line|] == '\n';
    assert s[|line| + 1..] == rest;
    assert FirstLine(s) == line;
    assert FirstLine(line) == line;
  }

}
