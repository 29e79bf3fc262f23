/** The four-level replacement of the edit_file tool
    (internal/tools/edit_file.go, `fuzzyReplace` and `lineByLineReplace`). */
module EditFile {
  import opened Basics
  import opened Strings

  datatype EditError = NotFound | Ambiguous(count: nat)

  // A text cut in three: what comes before the edited part, and after it.
  datatype Region = Region(before: string, middle: string, after: string)

  function Whole(g: Region): string {
    g.before + g.middle + g.after
  }

  // ---------- occurrences ----------

  predicate At(s: string, sub: string, i: int) {
    0 <= i <= |s| - |sub| && s[i..i + |sub|] == sub
  }

  // strings.Index
  function Index(s: string, sub: string): (r: Option<nat>)
    ensures r.Some? ==> At(s, sub, r.value)
    ensures forall j :: At(s, sub, j) ==> r.Some? && r.value <= j
  {
    IndexFrom(s, sub, 0)
  }

  function IndexFrom(s: string, sub: string, k: nat): (r: Option<nat>)
    ensures r.Some? ==> At(s, sub, r.value)
    ensures forall j :: k <= j && At(s, sub, j) ==> r.Some? && r.value <= j
    decreases |s| - k
  {
    if k > |s| - |sub| then None
    else if At(s, sub, k) then Some(k)
    else IndexFrom(s, sub, k + 1)
  }

  // strings.Count: occurrences that do not overlap, from the left. An empty
  // text is found around every character.
  function Count(s: string, sub: string): nat
    decreases |s|
  {
    if sub == "" then |s| + 1
    else match Index(s, sub)
      case None => 0
      case Some(i) => 1 + Count(s[i + |sub|..], sub)
  }

  // The text cut around the first occurrence.
  function Around(s: string, sub: string): (g: Region)
    requires Index(s, sub).Some?
    ensures Whole(g) == s && g.middle == sub
  {
    var i := Index(s, sub).value;
    Region(s[..i], sub, s[i + |sub|..])
  }

  // strings.ReplaceAll(s, "\r\n", "\n")
  function Normalize(s: string): string {
    if s == "" then ""
    else if At(s, "\r\n", 0) then "\n" + Normalize(s[2..])
    else [s[0]] + Normalize(s[1..])
  }

  // ---------- matching line by line ----------

  predicate SameTrimmed(a: seq<string>, b: seq<string>) {
    |a| == |b| && forall j :: 0 <= j < |a| ==> TrimSpace(a[j]) == TrimSpace(b[j])
  }

  predicate MatchesAt(lines: seq<string>, want: seq<string>, i: int) {
    0 <= i <= |lines| - |want| && SameTrimmed(lines[i..i + |want|], want)
  }

  predicate OnlyMatch(lines: seq<string>, want: seq<string>, i: int) {
    MatchesAt(lines, want, i) && forall j :: 0 <= j <= |lines| && MatchesAt(lines, want, j) ==> j == i
  }

  // One window matches, and no other.
  ghost predicate OneMatch(lines: seq<string>, want: seq<string>) {
    exists i :: OnlyMatch(lines, want, i)
  }

  function Windows(lines: seq<string>, want: seq<string>, n: nat): set<int> {
    set i | 0 <= i < n && MatchesAt(lines, want, i)
  }

  function LineRegion(lines: seq<string>, i: nat, j: nat): Region
    requires i <= j <= |lines|
  {
    Region(if i == 0 then "" else Join(lines[..i]) + "\n",
           Join(lines[i..j]),
           if j == |lines| then "" else "\n" + Join(lines[j..]))
  }

  ghost function FindLines(text: string, oldText: string): Result<Region, EditError> {
    var lines, want := Split(text), Split(TrimSpace(oldText));
    if OneMatch(lines, want) then
      var i :| OnlyMatch(lines, want, i);
      Ok(LineRegion(lines, i, i + |want|))
    else
      var n := |Windows(lines, want, |lines|)|;
      if n == 0 then Err(NotFound) else Err(Ambiguous(n))
  }

  // What an edit replaces. It does not depend on the new text.
  ghost function Find(text: string, oldText: string): Result<Region, EditError> {
    var n := Count(text, oldText);
    if n > 1 then Err(Ambiguous(n))
    else if n == 1 then CountedOnce(text, oldText); Ok(Around(text, oldText))
    else
      var text', old' := Normalize(text), Normalize(oldText);
      if Count(text', old') == 1 then CountedOnce(text', old'); Ok(Around(text', old'))
      else
        var core := TrimSpace(old');
        if core != "" && Count(text', core) == 1 then CountedOnce(text', core); Ok(Around(text', core))
        else FindLines(text', old')
  }

  ghost function Edited(g: Result<Region, EditError>, newText: string): Result<string, EditError> {
    match g
    case Ok(r) => Ok(r.before + newText + r.after)
    case Err(e) => Err(e)
  }

  lemma CountedOnce(s: string, sub: string)
    requires Count(s, sub) > 0
    ensures Index(s, sub).Some?
  {
    hide Index;
    if sub == "" {
      assert At(s, sub, 0);
    }
  }

  // ---------- lineByLineReplace ----------

  lemma WindowsStep(lines: seq<string>, want: seq<string>, n: nat)
    ensures Windows(lines, want, n + 1) ==
            if MatchesAt(lines, want, n) then Windows(lines, want, n) + {n} else Windows(lines, want, n)
    ensures n !in Windows(lines, want, n)
  {
    hide MatchesAt;
  }

  lemma WindowsEnd(lines: seq<string>, want: seq<string>, n: nat)
    requires want != [] && |lines| - |want| < n <= |lines|
    ensures Windows(lines, want, n) == Windows(lines, want, |lines|)
  {
    hide SameTrimmed;
  }

  lemma OneWindow(lines: seq<string>, want: seq<string>, i: int)
    requires want != []
    ensures Windows(lines, want, |lines|) == {i} <==> OnlyMatch(lines, want, i)
  {
    hide SameTrimmed;
    var w := Windows(lines, want, |lines|);
    assert forall j :: j in w <==> MatchesAt(lines, want, j);
    if OnlyMatch(lines, want, i) {
      assert forall j :: j in w <==> j == i;
    }
    if w == {i} {
      assert i in w;
      assert forall j :: MatchesAt(lines, want, j) ==> j in w;
    }
  }

  lemma SpliceJoin(lines: seq<string>, i: nat, j: nat, newText: string)
    requires i <= j <= |lines|
    ensures var g := LineRegion(lines, i, j);
            Join(lines[..i] + [newText] + lines[j..]) == g.before + newText + g.after
  {
    hide Join;
    var head, tail := lines[..i], lines[j..];
    JoinOne(newText);
    if i > 0 {
      JoinConcat(head, [newText]);
    } else {
      assert head + [newText] == [newText];
    }
    var front := head + [newText];
    if j < |lines| {
      JoinConcat(front, tail);
      assert Join(front) + "\n" + Join(tail) == Join(front) + ("\n" + Join(tail));
    } else {
      assert front + tail == front;
    }
  }

  // The window of lines at i, against lines that are already trimmed.
  method WindowMatches(lines: seq<string>, want: seq<string>, i: nat, ghost given: seq<string>)
    returns (isMatch: bool)
    requires i + |want| <= |lines|
    requires |given| == |want| && forall j :: 0 <= j < |want| ==> want[j] == TrimSpace(given[j])
    ensures isMatch == MatchesAt(lines, given, i)
  {
    hide TrimSpace;
    isMatch := true;
    var j := 0;
    while j < |want|
      invariant 0 <= j <= |want| && isMatch
      invariant forall k :: 0 <= k < j ==> TrimSpace(lines[i..i + |given|][k]) == TrimSpace(given[k])
    {
      assert lines[i + j] == lines[i..i + |given|][j];
      if TrimSpace(lines[i + j]) != want[j] {
        isMatch := false;
        break;
      }
      j := j + 1;
    }
  }

  method TrimLines(given: seq<string>) returns (want: seq<string>)
    ensures |want| == |given| && forall j :: 0 <= j < |want| ==> want[j] == TrimSpace(given[j])
  {
    hide TrimSpace;
    want := given;
    for i := 0 to |want|
      invariant |want| == |given|
      invariant forall j :: 0 <= j < i ==> want[j] == TrimSpace(given[j])
      invariant forall j :: i <= j < |want| ==> want[j] == given[j]
    {
      want := want[i := TrimSpace(want[i])];
    }
  }

  method LineByLineReplace(text: string, oldText: string, newText: string)
    returns (r: Result<string, EditError>)
    ensures r == Edited(FindLines(text, oldText), newText)
  {
    hide TrimSpace, MatchesAt, Split, Join, OnlyMatch, Windows, LineRegion, FindLines;
    var lines := Split(text);
    ghost var given := Split(TrimSpace(oldText));
    var want := Split(TrimSpace(oldText));
    if |want| == 0 || |lines| < |want| {
      TooFewLines(text, oldText);
      return Err(NotFound);
    }
    want := TrimLines(want);
    var matchCount, start, end := 0, -1, -1;
    var i := 0;
    NoWindows(lines, given);
    while i <= |lines| - |want|
      invariant 0 <= i <= |lines| - |want| + 1
      invariant matchCount == |Windows(lines, given, i)|
      invariant matchCount > 0 ==> 0 <= start && end == start + |want| <= |lines|
      invariant matchCount == 1 ==> Windows(lines, given, i) == {start}
    {
      var isMatch := WindowMatches(lines, want, i, given);
      WindowsStep(lines, given, i);
      Singleton(Windows(lines, given, i), i);
      if isMatch {
        matchCount := matchCount + 1;
        start := i;
        end := i + |want|;
      }
      i := i + 1;
    }
    WindowsEnd(lines, given, i);
    if matchCount == 0 {
      NotOnce(text, oldText);
      return Err(NotFound);
    }
    if matchCount > 1 {
      NotOnce(text, oldText);
      return Err(Ambiguous(matchCount));
    }
    Once(text, oldText, start);
    SpliceJoin(lines, start, end, newText);
    r := Ok(Join(lines[..start] + [newText] + lines[end..]));
  }

  lemma NoWindows(lines: seq<string>, want: seq<string>)
    ensures Windows(lines, want, 0) == {}
  {
  }

  lemma Singleton(w: set<int>, i: int)
    ensures |w| == 0 ==> w + {i} == {i}
  {
  }

  lemma TooFewLines(text: string, oldText: string)
    requires |Split(text)| < |Split(TrimSpace(oldText))|
    ensures FindLines(text, oldText) == Err(NotFound)
  {
    hide Split, TrimSpace, SameTrimmed;
    var lines, want := Split(text), Split(TrimSpace(oldText));
    assert forall i :: !MatchesAt(lines, want, i);
    assert Windows(lines, want, |lines|) == {};
  }

  lemma NotOnce(text: string, oldText: string)
    requires |Windows(Split(text), Split(TrimSpace(oldText)), |Split(text)|)| != 1
    ensures var n := |Windows(Split(text), Split(TrimSpace(oldText)), |Split(text)|)|;
            FindLines(text, oldText) == if n == 0 then Err(NotFound) else Err(Ambiguous(n))
  {
    hide Split, TrimSpace, MatchesAt, OnlyMatch, Windows;
    var lines, want := Split(text), Split(TrimSpace(oldText));
    forall i ensures !OnlyMatch(lines, want, i) {
      OneWindow(lines, want, i);
      assert Windows(lines, want, |lines|) != {i};
    }
  }

  lemma Once(text: string, oldText: string, i: int)
    requires Windows(Split(text), Split(TrimSpace(oldText)), |Split(text)|) == {i}
    ensures var lines, want := Split(text), Split(TrimSpace(oldText));
            OnlyMatch(lines, want, i) && 0 <= i <= |lines| - |want| &&
            FindLines(text, oldText) == Ok(LineRegion(lines, i, i + |want|))
  {
    hide Split, TrimSpace, SameTrimmed, Windows, LineRegion;
    var lines, want := Split(text), Split(TrimSpace(oldText));
    OneWindow(lines, want, i);
    assert forall j :: OnlyMatch(lines, want, j) ==> j == i;
  }

  // ---------- fuzzyReplace ----------

  // strings.Replace(s, sub, newText, 1)
  function ReplaceFirst(s: string, sub: string, newText: string): string
    requires Count(s, sub) > 0
  {
    CountedOnce(s, sub);
    var g := Around(s, sub);
    g.before + newText + g.after
  }

  method FuzzyReplace(text: string, oldText: string, newText: string)
    returns (r: Result<string, EditError>)
    ensures r == Edited(Find(text, oldText), newText)
    ensures IsEdit(text, oldText, newText, r)
  {
    hide Count, Normalize, TrimSpace, FindLines, Around, IsEdit;
    EditIs(text, oldText, newText);
    var count := Count(text, oldText);
    if count == 1 {
      return Ok(ReplaceFirst(text, oldText, newText));
    }
    if count > 1 {
      return Err(Ambiguous(count));
    }
    var text', old' := Normalize(text), Normalize(oldText);
    count := Count(text', old');
    if count == 1 {
      return Ok(ReplaceFirst(text', old', newText));
    }
    var core := TrimSpace(old');
    if core != "" {
      count := Count(text', core);
      if count == 1 {
        return Ok(ReplaceFirst(text', core, newText));
      }
    }
    r := LineByLineReplace(text', old', newText);
  }

  // ---------- what an edit changes ----------

  // Only the lines of the window are replaced; the others stay, in order.
  lemma SplitRegion(lines: seq<string>, i: nat, j: nat, newText: string)
    requires i <= j <= |lines| && NewlineFree(lines)
    ensures var g := LineRegion(lines, i, j);
            Split(g.before + newText + g.after) == lines[..i] + Split(newText) + lines[j..]
  {
    hide Split, Join;
    var g := LineRegion(lines, i, j);
    if i > 0 {
      SplitJoin(lines[..i]);
      SplitConcat(Join(lines[..i]), newText);
    } else {
      assert g.before + newText == newText;
    }
    if j < |lines| {
      SplitJoin(lines[j..]);
      SplitConcat(g.before + newText, Join(lines[j..]));
      assert g.before + newText + "\n" + Join(lines[j..]) == g.before + newText + g.after;
    } else {
      assert g.before + newText + g.after == g.before + newText;
    }
  }

  lemma LineRegionCuts(text: string, i: nat, j: nat)
    requires i < j <= |Split(text)|
    ensures var g := LineRegion(Split(text), i, j);
            Whole(g) == text && Split(g.middle) == Split(text)[i..j]
  {
    hide Split, Join, LineRegion;
    var lines := Split(text);
    JoinSplit(text);
    var g := LineRegion(lines, i, j);
    MiddleIs(lines, i, j);
    SplitJoin(lines[i..j]);
    SplitRegion(lines, i, j, g.middle);
    assert lines[..i] + lines[i..j] + lines[j..] == lines;
    JoinSplit(Whole(g));
  }

  lemma MiddleIs(lines: seq<string>, i: nat, j: nat)
    requires i <= j <= |lines|
    ensures LineRegion(lines, i, j).middle == Join(lines[i..j])
  {
    hide Join;
  }

  // What `r` says about the windows of the text.
  ghost predicate EditsOneWindow(lines: seq<string>, want: seq<string>, newText: string, r: Result<string, EditError>) {
    match r
    case Ok(edited) =>
      exists i :: OnlyMatch(lines, want, i) && Split(edited) == lines[..i] + Split(newText) + lines[i + |want|..]
    case Err(NotFound) => forall i :: !MatchesAt(lines, want, i)
    case Err(Ambiguous(n)) => n > 1 && n == |Windows(lines, want, |lines|)|
  }

  // The last level succeeds exactly when one window of lines matches modulo
  // the blanks around each line, and then it replaces just that window.
  lemma LineEditExactly(text: string, oldText: string, newText: string)
    ensures EditsOneWindow(Split(text), Split(TrimSpace(oldText)), newText, Edited(FindLines(text, oldText), newText))
  {
    hide Split, TrimSpace, MatchesAt, OnlyMatch, LineRegion, Windows, FindLines;
    var lines, want := Split(text), Split(TrimSpace(oldText));
    if exists i :: Windows(lines, want, |lines|) == {i} {
      var i :| Windows(lines, want, |lines|) == {i};
      Once(text, oldText, i);
      JoinSplit(text);
      SplitRegion(lines, i, i + |want|, newText);
    } else {
      SizeOne(Windows(lines, want, |lines|));
      NotOnce(text, oldText);
      NoneMatches(lines, want);
    }
  }

  lemma SizeOne(w: set<int>)
    ensures |w| == 1 ==> exists i :: w == {i}
  {
    assert (forall i :: i !in w) ==> w == {};
    if |w| == 1 {
      var i :| i in w;
      assert |w - {i}| == 0;
      assert w == {i};
    }
  }

  lemma NoneMatches(lines: seq<string>, want: seq<string>)
    requires want != []
    ensures |Windows(lines, want, |lines|)| == 0 ==> forall i :: !MatchesAt(lines, want, i)
  {
    hide SameTrimmed;
    var w := Windows(lines, want, |lines|);
    assert forall i :: MatchesAt(lines, want, i) ==> i in w;
  }

  // Every success replaces one contiguous region: of the text itself when the
  // old text occurs in it, of the normalized text otherwise. The region does
  // not depend on the new text.
  lemma EditIsOneRegion(text: string, oldText: string, newText: string)
    requires Find(text, oldText).Ok?
    ensures var g := Find(text, oldText).value;
            var text', old' := Normalize(text), Normalize(oldText);
            && Edited(Find(text, oldText), newText) == Ok(g.before + newText + g.after)
            && (if Count(text, oldText) == 1 then Whole(g) == text && g.middle == oldText
                else
                  && Whole(g) == text'
                  && (if Count(text', old') == 1 then g.middle == old'
                      else if TrimSpace(old') != "" && Count(text', TrimSpace(old')) == 1 then g.middle == TrimSpace(old')
                      else SameTrimmed(Split(g.middle), Split(TrimSpace(old')))))
  {
    hide Count, Index, Normalize, TrimSpace, FindLines, Split, Around, Whole, SameTrimmed;
    var text', old' := Normalize(text), Normalize(oldText);
    if FindLines(text', old').Ok? {
      LineMatchAccepted(text', old');
    }
  }

  lemma LineMatchAccepted(text: string, oldText: string)
    requires FindLines(text, oldText).Ok?
    ensures var g := FindLines(text, oldText).value;
            Whole(g) == text && SameTrimmed(Split(g.middle), Split(TrimSpace(oldText)))
  {
    hide TrimSpace, Split, Whole, LineRegion, SameTrimmed;
    var lines, want := Split(text), Split(TrimSpace(oldText));
    var i :| OnlyMatch(lines, want, i) && FindLines(text, oldText) == Ok(LineRegion(lines, i, i + |want|));
    LineRegionCuts(text, i, i + |want|);
  }

  // ---------- occurrences and their count ----------

  ghost predicate OccursOnce(s: string, sub: string) {
    exists i :: At(s, sub, i) && forall j :: At(s, sub, j) ==> j == i
  }

  lemma CountIsZero(s: string, sub: string)
    ensures Count(s, sub) == 0 <==> sub != "" && forall j :: !At(s, sub, j)
  {
  }

  // Every occurrence overlaps the first one, at i.
  ghost predicate AllOverlap(s: string, sub: string, i: int) {
    At(s, sub, i) && forall j :: At(s, sub, j) ==> i <= j < i + |sub|
  }

  // The count is one exactly when every occurrence overlaps the first.
  lemma CountIsOne(s: string, sub: string)
    requires sub != ""
    ensures Count(s, sub) == 1 <==> exists i :: AllOverlap(s, sub, i)
  {
    hide Index, Count, At, AllOverlap;
    CountIsZero(s, sub);
    if Index(s, sub).Some? {
      IndexFirst(s, sub);
      var i := Index(s, sub).value;
      CountStep(s, sub);
      CountIsZero(s[i + |sub|..], sub);
      NoneBehind(s, sub, i + |sub|);
      OverlapIsFirst(s, sub, i);
    } else {
      NoOverlap(s, sub);
    }
  }

  // `g` cuts the text around an occurrence that any other one overlaps from behind.
  ghost predicate CutsAtOnly(s: string, sub: string, g: Region) {
    && Whole(g) == s && g.middle == sub
    && forall j :: At(s, sub, j) ==> j == |g.before| || |g.before| < j < |g.before| + |sub|
  }

  ghost predicate HasOnly(s: string, sub: string) {
    exists g :: CutsAtOnly(s, sub, g)
  }

  ghost predicate ReplacesOnly(s: string, sub: string, newText: string, r: Result<string, EditError>) {
    exists g :: CutsAtOnly(s, sub, g) && r == Ok(g.before + newText + g.after)
  }

  // What an edit does: it replaces the old text where it is found once, as it is
  // written or, if it is not found at all, with line ends normalized, or then
  // without its outer blanks; failing that, the one window of lines that matches.
  ghost predicate IsEdit(text: string, oldText: string, newText: string, r: Result<string, EditError>) {
    var text', old' := Normalize(text), Normalize(oldText);
    var core := TrimSpace(old');
    if HasOnly(text, oldText) then ReplacesOnly(text, oldText, newText, r)
    else if exists i :: At(text, oldText, i) then r.Err? && r.error.Ambiguous? && r.error.count > 1
    else if HasOnly(text', old') then ReplacesOnly(text', old', newText, r)
    else if core != "" && HasOnly(text', core) then ReplacesOnly(text', core, newText, r)
    else EditsOneWindow(Split(text'), Split(core), newText, r)
  }

  lemma CountedIsOnly(s: string, sub: string)
    ensures Count(s, sub) == 1 <==> HasOnly(s, sub)
    ensures Count(s, sub) == 1 ==> Index(s, sub).Some? && CutsAtOnly(s, sub, Around(s, sub))
  {
    hide Count, Index, At;
    if sub == "" {
      EmptyIsOnly(s);
    } else {
      CountIsOne(s, sub);
      if Count(s, sub) == 1 {
        CountedOnce(s, sub);
        IndexFirst(s, sub);
        OverlapIsFirst(s, sub, Index(s, sub).value);
        assert CutsAtOnly(s, sub, Around(s, sub));
      }
      if g :| CutsAtOnly(s, sub, g) {
        CutIsAt(s, sub, g);
        assert AllOverlap(s, sub, |g.before|);
      }
    }
  }

  lemma CutIsAt(s: string, sub: string, g: Region)
    requires Whole(g) == s && g.middle == sub
    ensures At(s, sub, |g.before|)
  {
    assert s[|g.before|..|g.before| + |sub|] == sub;
  }

  lemma EmptyIsOnly(s: string)
    ensures Count(s, "") == 1 <==> HasOnly(s, "")
    ensures Count(s, "") == 1 ==> Index(s, "").Some? && CutsAtOnly(s, "", Around(s, ""))
  {
    assert At(s, "", 0) && At(s, "", |s|);
    assert s == "" ==> CutsAtOnly(s, "", Around(s, ""));
  }

  lemma EditIs(text: string, oldText: string, newText: string)
    ensures IsEdit(text, oldText, newText, Edited(Find(text, oldText), newText))
  {
    hide Count, Normalize, TrimSpace, FindLines, Split, EditsOneWindow, HasOnly, CutsAtOnly, Index, At, Around;
    var text', old' := Normalize(text), Normalize(oldText);
    CountedIsOnly(text, oldText);
    CountedIsOnly(text', old');
    CountedIsOnly(text', TrimSpace(old'));
    CountIsZero(text, oldText);
    if oldText == "" {
      EmptyIsAt(text);
    }
    LineEditExactly(text', old', newText);
  }

  lemma EmptyIsAt(s: string)
    ensures At(s, "", 0) && Count(s, "") > 0
  {
  }

  lemma NoOverlap(s: string, sub: string)
    requires Index(s, sub).None?
    ensures forall i :: !AllOverlap(s, sub, i)
  {
    hide Index, At;
  }

  lemma OverlapIsFirst(s: string, sub: string, first: nat)
    requires At(s, sub, first) && forall j :: At(s, sub, j) ==> first <= j
    ensures (exists i :: AllOverlap(s, sub, i)) <==> forall j :: At(s, sub, j) ==> j < first + |sub|
  {
    hide At;
    if i :| AllOverlap(s, sub, i) {
      assert i == first;
    }
    assert (forall j :: At(s, sub, j) ==> j < first + |sub|) ==> AllOverlap(s, sub, first);
  }

  lemma NoneBehind(s: string, sub: string, k: nat)
    requires k <= |s|
    ensures (forall j :: !At(s[k..], sub, j)) <==> forall j :: At(s, sub, j) ==> j < k
  {
    hide At;
    forall j ensures At(s[k..], sub, j) <==> j >= 0 && At(s, sub, k + j) {
      AtSuffix(s, sub, k, j);
    }
    assert forall j :: At(s, sub, j) && j >= k ==> At(s[k..], sub, j - k);
  }

  lemma IndexFirst(s: string, sub: string)
    requires Index(s, sub).Some? || exists k :: At(s, sub, k)
    ensures Index(s, sub).Some? && At(s, sub, Index(s, sub).value) && Index(s, sub).value + |sub| <= |s|
    ensures forall k :: At(s, sub, k) ==> Index(s, sub).value <= k
  {
    hide Index;
  }

  lemma CountStep(s: string, sub: string)
    requires sub != "" && Index(s, sub).Some?
    ensures Count(s, sub) == 1 + Count(s[Index(s, sub).value + |sub|..], sub)
  {
    hide Index;
  }

  lemma AtSuffix(s: string, sub: string, k: nat, j: int)
    requires k <= |s|
    ensures At(s[k..], sub, j) <==> j >= 0 && At(s, sub, k + j)
  {
    if j >= 0 && k + j + |sub| <= |s| {
      assert s[k..][j..j + |sub|] == s[k + j..k + j + |sub|];
    }
  }

  lemma OnceIsCountedOnce(s: string, sub: string)
    requires sub != "" && OccursOnce(s, sub)
    ensures Count(s, sub) == 1
  {
    hide Count, At;
    var i :| At(s, sub, i) && forall j :: At(s, sub, j) ==> j == i;
    assert AllOverlap(s, sub, i);
    CountIsOne(s, sub);
  }

  // A text that occurs at two places apart is never edited, not even by a
  // weaker level.
  lemma TwiceIsRefused(text: string, oldText: string, newText: string, i: nat, j: nat)
    requires oldText != "" && i + |oldText| <= j
    requires At(text, oldText, i) && At(text, oldText, j)
    ensures Edited(Find(text, oldText), newText) == Err(Ambiguous(Count(text, oldText)))
    ensures Count(text, oldText) > 1
  {
    hide Count, Index, Normalize, FindLines, TrimSpace;
    CountIsZero(text, oldText);
    CountIsOne(text, oldText);
  }

  lemma {:induction false} TrimLeftInside(s: string) returns (n: nat)
    ensures n <= |s| && TrimLeft(s) == s[n..]
    decreases |s|
  {
    n := 0;
    if s != "" && IsSpace(s[0]) {
      n := TrimLeftInside(s[1..]);
      n := n + 1;
    }
  }

  lemma {:induction false} TrimRightInside(s: string) returns (n: nat)
    ensures n <= |s| && TrimRight(s) == s[..n]
    decreases |s|
  {
    n := |s|;
    if s != "" && IsSpace(s[n - 1]) {
      n := TrimRightInside(s[..n - 1]);
      assert s[..|s| - 1][..n] == s[..n];
    }
  }

  // Wherever a text occurs, its trimmed form occurs within it.
  lemma TrimmedOccurs(s: string, sub: string) returns (n: nat)
    ensures n + |TrimSpace(sub)| <= |sub|
    ensures forall i :: At(s, sub, i) ==> At(s, TrimSpace(sub), i + n)
  {
    hide TrimLeft, TrimRight;
    n := TrimLeftInside(sub);
    var m := TrimRightInside(sub[n..]);
    var core := TrimSpace(sub);
    SliceOfSlice(sub, n, |sub| - n, 0, m);
    assert sub[n..n + (|sub| - n)] == sub[n..];
    forall i | At(s, sub, i) ensures At(s, core, i + n) {
      SliceOfSlice(s, i, |sub|, n, m);
    }
  }

  lemma SliceOfSlice(s: string, i: nat, k: nat, n: nat, m: nat)
    requires i + k <= |s| && n + m <= k
    ensures s[i..i + k][n..n + m] == s[i + n..i + n + m]
  {
    var a, b := s[i..i + k][n..n + m], s[i + n..i + n + m];
    assert |a| == |b| == m && forall x :: 0 <= x < m ==> a[x] == b[x];
  }

  lemma TwoApart(s: string, sub: string) returns (i: nat, j: nat)
    requires sub != "" && Count(s, sub) > 1
    ensures At(s, sub, i) && At(s, sub, j) && i + |sub| <= j
  {
    hide Count, Index, At;
    CountIsZero(s, sub);
    var first := Index(s, sub).value;
    IndexFirst(s, sub);
    CountIsOne(s, sub);
    OverlapIsFirst(s, sub, first);
    var k :| At(s, sub, k) && k >= first + |sub|;
    i, j := first, k;
  }

  lemma ApartIsCounted(s: string, sub: string, i: nat, j: nat)
    requires sub != "" && At(s, sub, i) && At(s, sub, j) && i + |sub| <= j
    ensures Count(s, sub) > 1
  {
    hide Count, Index;
    CountIsZero(s, sub);
    CountIsOne(s, sub);
  }

  // Only a text that is found twice as it is written is refused for that. What
  // is found more than once with line ends normalized is found more than once
  // trimmed as well, and is then edited exactly when one window of whole lines
  // matches; so is what is absent before trimming and found twice after.
  lemma WeakAmbiguityExactly(text: string, oldText: string)
    requires Count(text, oldText) == 0
    requires var text', old' := Normalize(text), Normalize(oldText);
             Count(text', old') > 1 || (Count(text', old') == 0 && Count(text', TrimSpace(old')) > 1)
    ensures var text', core := Normalize(text), TrimSpace(Normalize(oldText));
            && (core != "" ==> Count(text', core) > 1)
            && (Find(text, oldText).Ok? <==> OneMatch(Split(text'), Split(core)))
  {
    hide Count, Index, Normalize, TrimSpace, FindLines, Split, At, OneMatch;
    var text', old' := Normalize(text), Normalize(oldText);
    if Count(text', old') > 1 {
      CountIsZero(text, oldText);
      NormalizeNonempty(oldText);
      var i, j := TwoApart(text', old');
      var n := TrimmedOccurs(text', old');
      if TrimSpace(old') != "" {
        ApartIsCounted(text', TrimSpace(old'), i + n, j + n);
      }
    }
    LinesFound(text', old');
  }

  // An input that is found three times at both weaker levels, and is edited.
  lemma WeakAmbiguityIsEdited(newText: string)
    ensures var text, oldText := "xa\nya\na\n", "a\r\n";
            && Count(text, oldText) == 0 && Count(Normalize(text), Normalize(oldText)) > 1
            && Find(text, oldText).Ok?
  {
    hide Count, Index, FindLines, Split, TrimSpace, OneMatch, Find, Normalize;
    var text, oldText := "xa\nya\na\n", "a\r\n";
    PlainIsNormal(text);
    NoReturnNoMatch(text, oldText);
    OldIsNormalized();
    assert At(text, "a\n", 1) && At(text, "a\n", 4);
    ApartIsCounted(text, "a\n", 1, 4);
    WeakAmbiguityExactly(text, oldText);
    SampleMatchesOnce();
  }

  lemma PlainIsNormal(s: string)
    requires '\r' !in s
    ensures Normalize(s) == s
  {
    hide Normalize;
    forall i ensures !At(s, "\r\n", i) {
      AtHolds(s, "\r\n", i);
    }
    NormalizePlain(s);
  }

  lemma NoReturnNoMatch(s: string, sub: string)
    requires '\r' !in s && '\r' in sub
    ensures Count(s, sub) == 0
  {
    hide Count;
    CountIsZero(s, sub);
    forall i ensures !At(s, sub, i) {
      AtHolds(s, sub, i);
    }
  }

  lemma AtHolds(s: string, sub: string, i: int)
    ensures At(s, sub, i) ==> forall c :: c in sub ==> c in s
  {
  }

  lemma OldIsNormalized()
    ensures Normalize("a\r\n") == "a\n"
  {
    var s := "a\r\n";
    assert s[1..] == "\r\n" && s[1..][2..] == "";
    assert At(s[1..], "\r\n", 0);
    assert !At(s, "\r\n", 0) by {
      assert s[..2][0] == 'a';
    }
  }

  lemma SampleMatchesOnce()
    ensures OneMatch(Split("xa\nya\na\n"), Split(TrimSpace("a\n")))
  {
    hide Split, Join, TrimSpace;
    var lines := ["xa", "ya", "a", ""];
    SampleJoined();
    SplitJoin(lines);
    SampleTrimmed();
    SplitJoin(["a"]);
    JoinOne("a");
    forall i ensures MatchesAt(lines, ["a"], i) <==> i == 2 {
      OneLineWindow(lines, "a", i);
    }
    assert OnlyMatch(lines, ["a"], 2);
  }

  lemma OneLineWindow(lines: seq<string>, line: string, i: int)
    ensures MatchesAt(lines, [line], i) <==> 0 <= i < |lines| && TrimSpace(lines[i]) == TrimSpace(line)
  {
    hide TrimSpace;
    if 0 <= i < |lines| {
      assert lines[i..i + 1] == [lines[i]];
    }
  }

  lemma SampleJoined()
    ensures Join(["xa", "ya", "a", ""]) == "xa\nya\na\n"
  {
    hide Join;
    JoinConcat(["xa"], ["ya", "a", ""]);
    JoinConcat(["ya"], ["a", ""]);
    JoinConcat(["a"], [""]);
    JoinOne("xa");
    JoinOne("ya");
    JoinOne("a");
    JoinOne("");
    assert ["xa"] + ["ya", "a", ""] == ["xa", "ya", "a", ""];
    assert ["ya"] + ["a", ""] == ["ya", "a", ""];
    assert ["a"] + [""] == ["a", ""];
  }

  lemma SampleTrimmed()
    ensures TrimSpace("a\n") == "a" && TrimSpace("xa") == "xa" && TrimSpace("ya") == "ya" && TrimSpace("a") == "a"
    ensures TrimSpace("") == ""
  {
    assert "a\n"[..1] == "a";
  }

  lemma NormalizeNonempty(s: string)
    ensures Normalize(s) == "" <==> s == ""
  {
  }

  lemma LinesFound(text: string, oldText: string)
    ensures FindLines(text, oldText).Ok? <==> OneMatch(Split(text), Split(TrimSpace(oldText)))
  {
    hide TrimSpace, Split, OnlyMatch, LineRegion, Windows;
  }

  // A text that starts as it ends overlaps itself.
  predicate Bordered(sub: string) {
    exists b :: 0 < b < |sub| && sub[..b] == sub[|sub| - b..]
  }

  // A count of one does not mean that the old text occurs once.
  lemma CountHidesOverlap()
    ensures Count("aaa", "aa") == 1 && !OccursOnce("aaa", "aa")
  {
    hide Count, Index;
    assert At("aaa", "aa", 0) && At("aaa", "aa", 1);
    assert AllOverlap("aaa", "aa", 0);
    CountIsOne("aaa", "aa");
  }

  // It does, in every text, exactly when the old text cannot overlap itself.
  lemma CountOfOneIsUniqueExactly(sub: string)
    requires sub != ""
    ensures (forall s :: Count(s, sub) == 1 ==> OccursOnce(s, sub)) <==> !Bordered(sub)
  {
    hide Count, Index;
    if Bordered(sub) {
      var b :| 0 < b < |sub| && sub[..b] == sub[|sub| - b..];
      Overlapped(sub, b);
    } else {
      forall s | Count(s, sub) == 1 ensures OccursOnce(s, sub) {
        UnborderedOnce(s, sub);
      }
    }
  }

  lemma Overlapped(sub: string, b: nat)
    requires 0 < b < |sub| && sub[..b] == sub[|sub| - b..]
    ensures var s := sub + sub[b..]; Count(s, sub) == 1 && !OccursOnce(s, sub)
  {
    hide Count, Index, At;
    var s := sub + sub[b..];
    OverlapPlaces(sub, b);
    forall j ensures At(s, sub, j) ==> 0 <= j < |sub| {
      AtBounds(s, sub, j);
    }
    assert AllOverlap(s, sub, 0);
    CountIsOne(s, sub);
  }

  lemma AtBounds(s: string, sub: string, j: int)
    ensures At(s, sub, j) ==> 0 <= j <= |s| - |sub|
  {
  }

  lemma OverlapPlaces(sub: string, b: nat)
    requires 0 < b < |sub| && sub[..b] == sub[|sub| - b..]
    ensures var s := sub + sub[b..]; At(s, sub, 0) && At(s, sub, |sub| - b)
  {
    var n := |sub|;
    var s := sub + sub[b..];
    assert s[..n] == sub;
    var t := s[n - b..n - b + n];
    forall k | 0 <= k < n ensures t[k] == sub[k] {
      if k < b {
        assert sub[..b][k] == sub[n - b..][k];
      }
    }
    assert t == sub;
  }

  lemma UnborderedOnce(s: string, sub: string)
    requires sub != "" && !Bordered(sub) && Count(s, sub) == 1
    ensures OccursOnce(s, sub)
  {
    hide Count, Index, Bordered;
    CountIsOne(s, sub);
    var i :| AllOverlap(s, sub, i);
    forall j | At(s, sub, j) ensures j == i {
      if i < j {
        OverlapIsBorder(s, sub, i, j);
      }
    }
  }

  lemma OverlapIsBorder(s: string, sub: string, i: int, j: int)
    requires At(s, sub, i) && At(s, sub, j) && i < j < i + |sub|
    ensures Bordered(sub)
  {
    var b := i + |sub| - j;
    assert sub[..b] == s[j..j + b] == sub[|sub| - b..];
  }

  // A text that occurs once is what the edit replaces.
  lemma UniqueTextIsReplaced(before: string, oldText: string, after: string, newText: string)
    requires oldText != "" && OccursOnce(before + oldText + after, oldText)
    ensures Edited(Find(before + oldText + after, oldText), newText) == Ok(before + newText + after)
  {
    hide Count, Index, Normalize, FindLines, OccursOnce, TrimSpace;
    var text := before + oldText + after;
    OnceIsCountedOnce(text, oldText);
    CountedOnce(text, oldText);
    OnlyOneAround(text, before, oldText, after);
  }

  // An exact edit is undone by the reverse edit when the new text then occurs
  // nowhere else.
  lemma ExactEditIsUndone(text: string, oldText: string, newText: string)
    requires Count(text, oldText) == 1 && newText != ""
    ensures Edited(Find(text, oldText), newText).Ok?
    ensures var r := Edited(Find(text, oldText), newText).value;
            OccursOnce(r, newText) ==> Edited(Find(r, newText), oldText) == Ok(text)
  {
    hide Count, Index, Normalize, FindLines, OccursOnce, TrimSpace;
    CountedOnce(text, oldText);
    var g := Around(text, oldText);
    var r := g.before + newText + g.after;
    assert Edited(Find(text, oldText), newText) == Ok(r);
    if OccursOnce(r, newText) {
      UniqueTextIsReplaced(g.before, newText, g.after, oldText);
    }
  }

  lemma OnlyOneAround(s: string, before: string, sub: string, after: string)
    requires s == before + sub + after && OccursOnce(s, sub)
    ensures Index(s, sub).Some? && Around(s, sub) == Region(before, sub, after)
  {
    hide Index;
    assert s[|before|..|before| + |sub|] == sub;
    assert At(s, sub, |before|);
    assert Index(s, sub) == Some(|before|);
    assert s[..|before|] == before && s[|before| + |sub|..] == after;
  }

  // ---------- line ends ----------

  ghost predicate Occurs(s: string, sub: string) {
    exists i :: At(s, sub, i)
  }

  // Normalizing shortens every return with newline to the newline, wherever the
  // text around it is cut.
  lemma {:induction false} NormalizeSplit(a: string, b: string)
    ensures Normalize(a + "\r\n" + b) == Normalize(a) + "\n" + Normalize(b)
    decreases |a|
  {
    var s := a + "\r\n" + b;
    if a == "" {
      assert s[..2] == "\r\n" && s[2..] == b;
    } else if At(a, "\r\n", 0) {
      assert s[..2] == a[..2] && s[2..] == a[2..] + "\r\n" + b;
      NormalizeSplit(a[2..], b);
    } else {
      assert s[1..] == a[1..] + "\r\n" + b;
      assert |a| == 1 ==> s[1] == '\r';
      assert |a| >= 2 ==> s[..2] == a[..2];
      NormalizeSplit(a[1..], b);
    }
  }

  lemma {:induction false} NormalizePlain(s: string)
    requires !Occurs(s, "\r\n")
    ensures Normalize(s) == s
    decreases |s|
  {
    if s != "" {
      assert !At(s, "\r\n", 0);
      assert s == [s[0]] + s[1..];
      OccursCons(s[0], s[1..], "\r\n");
      hide At, Occurs;
      NormalizePlain(s[1..]);
    }
  }

  // Normalizing leaves a carriage return before a newline exactly where two
  // carriage returns stood before it.
  lemma {:induction false} NormalizedExactly(s: string)
    ensures Occurs(Normalize(s), "\r\n") <==> Occurs(s, "\r\r\n")
    decreases |s|
  {
    if s != "" {
      if At(s, "\r\n", 0) {
        hide At, Occurs;
        NormalizedExactly(s[2..]);
        CrLf(s);
        OccursCons('\n', Normalize(s[2..]), "\r\n");
        OccursCons(s[1], s[2..], "\r\r\n");
        OccursCons(s[0], s[1..], "\r\r\n");
      } else {
        hide Occurs;
        NormalizedExactly(s[1..]);
        LoneCr(s);
        OccursCons(s[0], Normalize(s[1..]), "\r\n");
        OccursCons(s[0], s[1..], "\r\r\n");
      }
    }
  }

  lemma CrLf(s: string)
    requires At(s, "\r\n", 0)
    ensures |s| >= 2 && s[0] == '\r' && s[1] == '\n'
    ensures s == [s[0]] + s[1..] && s[1..] == [s[1]] + s[2..]
    ensures !("\r\n" <= s[1..])
  {
    assert s[..2] == "\r\n";
  }

  lemma LoneCr(s: string)
    requires s != "" && !At(s, "\r\n", 0)
    ensures s[0] == '\r' ==> ("\n" <= Normalize(s[1..]) <==> "\r\n" <= s[1..])
    ensures s == [s[0]] + s[1..]
  {
    var t := s[1..];
    if s[0] == '\r' && t != "" {
      var two := s[..2];
      assert two == [s[0], t[0]];
      var n := Normalize(t);
      assert n[0] == if At(t, "\r\n", 0) then '\n' else t[0];
      assert "\n" <= n <==> n[..1] == "\n";
      assert At(t, "\r\n", 0) <==> "\r\n" <= t;
    }
  }

  lemma OccursCons(c: char, s: string, sub: string)
    requires sub != ""
    ensures Occurs([c] + s, sub) <==> (c == sub[0] && sub[1..] <= s) || Occurs(s, sub)
  {
    var t := [c] + s;
    forall j ensures At(s, sub, j) <==> j >= 0 && At(t, sub, 1 + j) {
      AtSuffix(t, sub, 1, j);
      assert t[1..] == s;
    }
    assert At(t, sub, 0) <==> (c == sub[0] && sub[1..] <= s) by {
      if sub[1..] <= s && c == sub[0] {
        assert sub == [c] + sub[1..];
        assert t[..|sub|] == sub;
      }
      if At(t, sub, 0) {
        assert sub[1..] == t[..|sub|][1..] == s[..|sub| - 1];
      }
    }
    if Occurs(t, sub) {
      var i :| At(t, sub, i);
      assert i > 0 ==> At(s, sub, i - 1);
    }
  }
}
