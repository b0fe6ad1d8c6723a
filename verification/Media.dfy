/**
 The attachment marker: a message carries its files as a trailing block of path lines.
 Stripping and appending that block undo each other exactly on the lists where they can.
 */
module Media {
  import opened Text

  const FILES_MARKER := "[[AION_FILES]]"

  /** The last index not after `i` where `sub` occurs, or -1. */
  function SearchBack(s: string, sub: string, i: int): (r: int)
    ensures -1 <= r <= i || r == -1
    ensures r >= 0 ==> At(s, sub, r)
    ensures forall j | r < j <= i :: !At(s, sub, j)
    decreases i + 1
  {
    if i < 0 then -1 else if At(s, sub, i) then i else SearchBack(s, sub, i - 1)
  }

  /** The index of the first line break, or the length. */
  function NextBreak(s: string): (n: nat)
    ensures n <= |s| && '\n' !in s[..n]
    ensures n < |s| ==> s[n] == '\n'
  {
    if s == [] || s[0] == '\n' then 0 else
      var n := 1 + NextBreak(s[1..]);
      assert s[..n] == [s[0]] + s[1..][..n - 1];
      n
  }

  function DropCr(line: string): string {
    if line != [] && line[|line| - 1] == '\r' then line[..|line| - 1] else line
  }

  /** Lines end at a break, of which a carriage return is part; the last may lack one. */
  function Lines(s: string): seq<string>
    decreases |s|
  {
    if s == [] then []
    else
      var n := NextBreak(s);
      if n == |s| then [s] else [DropCr(s[..n])] + Lines(s[n + 1..])
  }

  function Entry(line: string): seq<string> {
    var t := Trim(line);
    if t == [] then [] else [t]
  }

  function Entries(lines: seq<string>): seq<string> {
    if lines == [] then [] else Entry(lines[0]) + Entries(lines[1..])
  }

  /** The file list a metadata block spells out. */
  function Listed(s: string): seq<string> {
    Entries(Lines(s))
  }

  function Join(paths: seq<string>): string {
    if paths == [] then ""
    else if |paths| == 1 then paths[0]
    else paths[0] + "\n" + Join(paths[1..])
  }

  function DropSuffix(s: string, suffix: string): string {
    if |suffix| <= |s| && s[|s| - |suffix|..] == suffix then s[..|s| - |suffix|] else s
  }

  /** Strip the trailing block if and only if it lists exactly `files`. */
  function StripMarker(content: string, files: seq<string>): string {
    var i := SearchBack(content, FILES_MARKER, |content|);
    if i < 0 then content
    else if Listed(content[i + |FILES_MARKER|..]) == files then DropSuffix(content[..i], "\n\n")
    else content
  }

  function AppendMarker(content: string, paths: seq<string>): string {
    if paths == [] then content else content + "\n\n" + FILES_MARKER + "\n" + Join(paths)
  }

  /** The text with its block listing every attachment. */
  function ContentWithAllPaths(content: string, files: seq<string>): string {
    AppendMarker(StripMarker(content, files), files)
  }

  /** A path the block can carry: trimmed, on one line, and not mistakable for a block. */
  predicate Carriable(path: string) {
    OneLine(path) && !Contains(path, FILES_MARKER)
  }

  predicate OneLine(path: string) {
    Trimmed(path) && '\n' !in path
  }

  // ---- trimming ----

  lemma {:induction false} TrimStartFacts(s: string)
    ensures var t := TrimStart(s);
      && (t == [] || !IsSpace(t[0])) && (forall c | c in t :: c in s)
      && (Blank(s) ==> t == []) && (t == [] ==> Blank(s))
  {
    if s != [] && IsSpace(s[0]) {
      TrimStartFacts(s[1..]);
      assert forall i | 0 < i < |s| :: s[i] == s[1..][i - 1];
    }
  }

  lemma {:induction false} TrimEndFacts(s: string)
    ensures var t := TrimEnd(s);
      && t <= s && (t == [] || !IsSpace(t[|t| - 1])) && (forall c | c in t :: c in s)
  {
    if s != [] && IsSpace(s[|s| - 1]) {
      TrimEndFacts(s[..|s| - 1]);
    }
  }

  lemma TrimFacts(s: string)
    ensures Trim(s) == [] || Trimmed(Trim(s))
    ensures forall c | c in Trim(s) :: c in s
    ensures Trimmed(s) ==> Trim(s) == s
  {
    TrimStartFacts(s);
    TrimEndFacts(TrimStart(s));
  }

  lemma {:induction false} TrimStartAppend(s: string, c: char)
    requires IsSpace(c)
    ensures TrimStart(s + [c]) == if Blank(s) then [] else TrimStart(s) + [c]
  {
    if s == [] {
      assert s + [c] == [c] && TrimStart([c]) == TrimStart([]);
    } else if IsSpace(s[0]) {
      assert (s + [c])[1..] == s[1..] + [c];
      TrimStartAppend(s[1..], c);
      assert Blank(s) <==> Blank(s[1..]) by {
        assert forall i | 0 <= i < |s| - 1 :: s[1..][i] == s[i + 1];
        assert forall i | 0 < i < |s| :: s[i] == s[1..][i - 1];
      }
    }
  }

  lemma TrimDropsTrailingSpace(s: string, c: char)
    requires IsSpace(c)
    ensures Trim(s + [c]) == Trim(s)
  {
    TrimStartAppend(s, c);
    TrimStartFacts(s);
    if !Blank(s) {
      assert (TrimStart(s) + [c])[..|TrimStart(s)|] == TrimStart(s);
    }
  }

  lemma EntryIgnoresCr(line: string)
    ensures Entry(DropCr(line)) == Entry(line)
  {
    if line != [] && line[|line| - 1] == '\r' {
      assert line == line[..|line| - 1] + ['\r'];
      TrimDropsTrailingSpace(line[..|line| - 1], '\r');
    }
  }

  // ---- listing ----

  lemma ListedLine(p: string)
    requires '\n' !in p
    ensures Listed(p) == Entry(p)
  {
    if p == [] {
      assert Entry([]) == [];
    } else {
      assert NextBreak(p) == |p|;
      assert Entries([p][1..]) == [];
    }
  }

  lemma ListedFirst(s: string)
    ensures var n := NextBreak(s);
      Listed(s) == Entry(s[..n]) + if n == |s| then [] else Listed(s[n + 1..])
  {
    hide Entry, Listed, NextBreak;
    if NextBreak(s) == |s| {
      assert s[..|s|] == s;
      ListedLine(s);
    } else {
      ListedUpTo(s, NextBreak(s));
    }
  }

  lemma ListedUpTo(s: string, n: nat)
    requires n == NextBreak(s) && n < |s|
    ensures Listed(s) == Entry(s[..n]) + Listed(s[n + 1..])
  {
    hide Entry, Entries, DropCr, NextBreak;
    EntryIgnoresCr(s[..n]);
    EntriesFirst(DropCr(s[..n]), Lines(s[n + 1..]));
  }

  lemma EntriesFirst(first: string, rest: seq<string>)
    ensures Entries([first] + rest) == Entry(first) + Entries(rest)
  {
    assert ([first] + rest)[1..] == rest;
  }

  lemma {:induction false} NextBreakAppend(p: string, rest: string)
    ensures NextBreak(p + "\n" + rest) == NextBreak(p)
  {
    if p != [] {
      assert (p + "\n" + rest)[1..] == p[1..] + "\n" + rest;
      NextBreakAppend(p[1..], rest);
    }
  }

  /** A break separates the lists on both sides. */
  lemma {:induction false} ListedBreak(p: string, rest: string)
    ensures Listed(p + "\n" + rest) == Listed(p) + Listed(rest)
    decreases |p|
  {
    hide Listed;
    var s, n := p + "\n" + rest, NextBreak(p);
    NextBreakAppend(p, rest);
    ListedFirst(s);
    ListedFirst(p);
    assert s[..n] == p[..n];
    if n == |p| {
      assert s[n + 1..] == rest;
    } else {
      assert s[n + 1..] == p[n + 1..] + "\n" + rest;
      ListedBreak(p[n + 1..], rest);
    }
  }

  lemma {:induction false} ListedOneLine(s: string)
    ensures forall p | p in Listed(s) :: OneLine(p)
    decreases |s|
  {
    if s != [] {
      var n := NextBreak(s);
      TrimFacts(s[..n]);
      EntryIgnoresCr(s[..n]);
      if n == |s| {
        assert s[..n] == s;
        ListedLine(s);
      } else {
        assert Listed(s) == Entry(s[..n]) + Listed(s[n + 1..]);
        ListedOneLine(s[n + 1..]);
      }
    }
  }

  lemma {:induction false} ListedJoin(paths: seq<string>)
    requires forall p | p in paths :: OneLine(p)
    ensures Listed(Join(paths)) == paths
  {
    if paths != [] {
      assert paths[0] in paths;
      TrimFacts(paths[0]);
      ListedLine(paths[0]);
      hide Listed;
      if |paths| > 1 {
        ListedBreak(paths[0], Join(paths[1..]));
        ListedJoin(paths[1..]);
        assert [paths[0]] + paths[1..] == paths;
      }
    }
  }

  /** A block spells out its own list if and only if every path is trimmed and on one line. */
  lemma BlockListsItself(paths: seq<string>)
    ensures Listed("\n" + Join(paths)) == paths <==> forall p | p in paths :: OneLine(p)
  {
    assert "\n" + Join(paths) == "" + "\n" + Join(paths);
    ListedBreak("", Join(paths));
    assert Listed("") == [];
    ListedOneLine(Join(paths));
    if forall p | p in paths :: OneLine(p) {
      ListedJoin(paths);
    }
  }

  // ---- finding the block ----

  lemma MarkerFacts()
    ensures |FILES_MARKER| == 14 && '\n' !in FILES_MARKER
  {
  }

  lemma AtChars(s: string, sub: string, i: int)
    requires At(s, sub, i)
    ensures forall k | i <= k < i + |sub| :: s[k] == sub[k - i]
  {
    forall k | i <= k < i + |sub| ensures s[k] == sub[k - i] {
      assert s[i..i + |sub|][k - i] == s[k];
    }
  }

  /** A marker spans no line break. */
  lemma NoBreakInside(s: string, i: int, k: nat)
    requires At(s, FILES_MARKER, i) && k < |s| && s[k] == '\n'
    ensures !(i <= k < i + 14)
  {
    MarkerFacts();
    AtChars(s, FILES_MARKER, i);
    assert forall j | 0 <= j < 14 :: FILES_MARKER[j] in FILES_MARKER;
  }

  /** The marker occurs in joined paths if and only if it occurs in one of them. */
  lemma {:induction false} MarkerInJoin(paths: seq<string>, j: nat)
    requires At(Join(paths), FILES_MARKER, j)
    ensures exists p | p in paths :: Contains(p, FILES_MARKER)
  {
    MarkerFacts();
    if |paths| == 1 {
      assert At(paths[0], FILES_MARKER, j) && paths[0] in paths;
    } else if |paths| > 1 {
      var s, first, rest := Join(paths), paths[0], Join(paths[1..]);
      assert s == first + "\n" + rest;
      NoBreakInside(s, j, |first|);
      if j < |first| {
        assert first[j..j + 14] == s[j..j + 14];
        assert At(first, FILES_MARKER, j) && first in paths;
      } else {
        var k := j - |first| - 1;
        assert rest[k..k + 14] == s[j..j + 14];
        MarkerInJoin(paths[1..], k);
      }
    }
  }

  lemma {:induction false} JoinHasPath(paths: seq<string>, k: nat, j: nat) returns (at: nat)
    requires k < |paths| && At(paths[k], FILES_MARKER, j)
    ensures At(Join(paths), FILES_MARKER, at)
  {
    MarkerFacts();
    if |paths| == 1 {
      at := j;
    } else if k == 0 {
      at := j;
      assert Join(paths)[j..j + 14] == paths[0][j..j + 14];
    } else {
      var k' := JoinHasPath(paths[1..], k - 1, j);
      at := |paths[0]| + 1 + k';
      assert Join(paths)[at..at + 14] == Join(paths[1..])[k'..k' + 14];
    }
  }

  /** Where the search lands in an appended block: at the block, unless a path hides a marker. */
  lemma LastMarker(text: string, files: seq<string>)
    requires files != []
    ensures var c := AppendMarker(text, files); var i := SearchBack(c, FILES_MARKER, |c|);
      if forall p | p in files :: !Contains(p, FILES_MARKER) then i == |text| + 2 else i > |text| + 2
  {
    hide Contains, Join, At;
    var c := AppendMarker(text, files);
    var u := |text| + 2;
    BlockMarker(text, files);
    var i := SearchBack(c, FILES_MARKER, |c|);
    if i > u {
      LaterMarkerIsHidden(text, files, i);
    }
    if p :| p in files && Contains(p, FILES_MARKER) {
      var j := HiddenMarkerIsLater(text, files, p);
    }
  }

  lemma BlockMarker(text: string, files: seq<string>)
    requires files != []
    ensures var c := AppendMarker(text, files); |text| + 2 <= |c| && At(c, FILES_MARKER, |text| + 2)
  {
    var c := AppendMarker(text, files);
    assert c == (text + "\n\n") + FILES_MARKER + "\n" + Join(files);
  }

  lemma LaterMarkerIsHidden(text: string, files: seq<string>, i: nat)
    requires files != [] && |text| + 2 < i
    requires At(AppendMarker(text, files), FILES_MARKER, i)
    ensures exists p | p in files :: Contains(p, FILES_MARKER)
  {
    hide Join, Contains;
    MarkerFacts();
    var c, u, tail := AppendMarker(text, files), |text| + 2, Join(files);
    assert c == (text + "\n\n") + FILES_MARKER + "\n" + tail;
    assert c[u + 14] == '\n';
    NoBreakInside(c, i, u + 14);
    var k := i - u - 15;
    assert tail[k..k + 14] == c[i..i + 14];
    MarkerInJoin(files, k);
  }

  lemma HiddenMarkerIsLater(text: string, files: seq<string>, p: string) returns (j: nat)
    requires p in files && Contains(p, FILES_MARKER)
    ensures var c := AppendMarker(text, files); |text| + 2 < j <= |c| && At(c, FILES_MARKER, j)
  {
    MarkerFacts();
    var c, u, tail := AppendMarker(text, files), |text| + 2, Join(files);
    assert c == (text + "\n\n") + FILES_MARKER + "\n" + tail;
    var k :| 0 <= k < |files| && files[k] == p;
    var start :| 0 <= start <= |p| && At(p, FILES_MARKER, start);
    hide Join, Contains;
    var at := JoinHasPath(files, k, start);
    j := u + 15 + at;
    assert c[j..j + 14] == tail[at..at + 14];
  }

  // ---- round trips ----

  /**
   Strip undoes append, whatever the text, if and only if every path can be carried. The text
   may hold markers of its own.
   */
  lemma StripUndoesAppend(text: string, files: seq<string>)
    requires files != []
    ensures StripMarker(AppendMarker(text, files), files) == text <==> forall p | p in files :: Carriable(p)
  {
    MarkerFacts();
    var c := AppendMarker(text, files);
    var i := SearchBack(c, FILES_MARKER, |c|);
    LastMarker(text, files);
    BlockListsItself(files);
    if i == |text| + 2 {
      assert c[i + 14..] == "\n" + Join(files);
      assert c[..i] == text + "\n\n";
      assert DropSuffix(c[..i], "\n\n") == text;
      assert |c| > |text|;
    } else {
      assert |StripMarker(c, files)| > |text|;
    }
  }

  /** Three lists that break the round trip on every text: outer blanks, a line break, a marker of their own. */
  lemma RoundTripBreaks(text: string)
    ensures StripMarker(AppendMarker(text, [" a.png"]), [" a.png"]) != text
    ensures StripMarker(AppendMarker(text, ["a\nb.png"]), ["a\nb.png"]) != text
    ensures StripMarker(AppendMarker(text, [FILES_MARKER]), [FILES_MARKER]) != text
  {
    var blank, broken, marked := " a.png", "a\nb.png", FILES_MARKER;
    assert blank in [blank] && !Trimmed(blank);
    assert broken in [broken] && broken[1] == '\n';
    assert marked in [marked] && At(marked, FILES_MARKER, 0);
    StripUndoesAppend(text, [blank]);
    StripUndoesAppend(text, [broken]);
    StripUndoesAppend(text, [marked]);
  }

  lemma AppendInjective(a: string, b: string, files: seq<string>)
    requires AppendMarker(a, files) == AppendMarker(b, files)
    ensures a == b
  {
    if files != [] {
      var block := "\n\n" + FILES_MARKER + "\n" + Join(files);
      assert AppendMarker(a, files) == a + block && AppendMarker(b, files) == b + block;
      assert (a + block)[..|a|] == a && (b + block)[..|b|] == b;
    }
  }

  /** The text ends in a block that lists nothing. */
  predicate EndsInEmptyBlock(content: string) {
    var i := SearchBack(content, FILES_MARKER, |content|);
    i >= 0 && Listed(content[i + |FILES_MARKER|..]) == []
  }

  /**
   Listing every path again changes nothing if and only if every path can be carried; with no
   files at all, if and only if stripping an empty block does not uncover another one.
   */
  lemma AllPathsIdempotent(content: string, files: seq<string>)
    ensures ContentWithAllPaths(ContentWithAllPaths(content, files), files) == ContentWithAllPaths(content, files)
            <==> if files == [] then !EndsInEmptyBlock(StripMarker(content, [])) else forall p | p in files :: Carriable(p)
  {
    var text := StripMarker(content, files);
    if files == [] {
      MarkerFacts();
      assert EndsInEmptyBlock(text) ==> |StripMarker(text, [])| < |text|;
    } else {
      hide StripMarker;
      StripUndoesAppend(text, files);
      if ContentWithAllPaths(ContentWithAllPaths(content, files), files) == ContentWithAllPaths(content, files) {
        AppendInjective(StripMarker(AppendMarker(text, files), files), text, files);
      }
    }
  }

  /** Two empty blocks in a row: each pass strips one. */
  lemma EmptyBlocksPeelOff()
    ensures ContentWithAllPaths(FILES_MARKER + FILES_MARKER, []) == FILES_MARKER
    ensures ContentWithAllPaths(FILES_MARKER, []) == ""
  {
    MarkerFacts();
    var twice := FILES_MARKER + FILES_MARKER;
    assert At(twice, FILES_MARKER, 14) && At(FILES_MARKER, FILES_MARKER, 0);
    assert SearchBack(twice, FILES_MARKER, 28) == 14 && SearchBack(FILES_MARKER, FILES_MARKER, 14) == 0;
    assert twice[28..] == [] && FILES_MARKER[14..] == [] && twice[..14] == FILES_MARKER && FILES_MARKER[..0] == [];
    assert Listed([]) == [];
    var last := FILES_MARKER[12..];
    assert last[1] == ']';
  }

  /** A message that carries exactly its block passes through byte for byte, if every path can be carried. */
  lemma AllPathsKeepsCanonical(text: string, files: seq<string>)
    requires files != []
    ensures ContentWithAllPaths(AppendMarker(text, files), files) == AppendMarker(text, files)
            <==> forall p | p in files :: Carriable(p)
  {
    hide StripMarker;
    StripUndoesAppend(text, files);
    if ContentWithAllPaths(AppendMarker(text, files), files) == AppendMarker(text, files) {
      AppendInjective(StripMarker(AppendMarker(text, files), files), text, files);
    }
  }
}
