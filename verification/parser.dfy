/** The front end's reading of the agent's recommendation reply
    (`parseAgenticaResponse`): the reply is split into lines, the lines whose
    trimmed text starts with a number and a full stop are kept, and each is
    matched against

        /^\d+\.\s*(.+?)\s*\(ID:\s*(w\d+)\)\s*-\s*(.+)/

    whose id capture is looked up in the catalogue. The pattern is modelled
    with the backtracking order of JavaScript's matcher: the greedy `\s*`
    runs first, the lazy name is the shortest that lets the rest match, and
    `.` matches no line terminator.
 */
module Parser {
  import opened Common
  import opened Seqs
  import opened Text
  import opened Records
  import opened Database
  import opened Catalog
  import opened Reasons
  import opened TierService
  import opened Agent

  /** `/^\d+\./`: a run of digits, then a full stop. */
  predicate Numbered(t: string)
  {
    var e := DigitRunEnd(t, 0);
    0 < e < |t| && t[e] == '.'
  }

  /** The line filter: `line.trim().match(/^\d+\./)`. */
  predicate IsCandidate(line: string)
  {
    Numbered(Trim(line))
  }

  /** The three captures of the line pattern. */
  datatype LineMatch = LineMatch(name: string, id: string, reason: string)

  /** What any match captures: a `w<digits>` id, and a name and a reason
      that are non-empty and hold no line terminator. */
  predicate Captures(m: LineMatch)
  {
    IsId(m.id) && |m.name| > 0 && OneLine(m.name) && |m.reason| > 0 && OneLine(m.reason)
  }

  /** The last position in [lo, hi] holding a character `.` matches: where
      a greedy `\s*` that must leave one character to a following `.` stops
      after giving characters back. */
  function LastUsable(line: string, lo: nat, hi: nat): (r: Option<nat>)
    requires lo <= hi <= |line|
    ensures r.Some? ==> lo <= r.value <= hi && r.value < |line| && !IsLineTerm(line[r.value])
    ensures r.Some? ==> forall k :: r.value < k <= hi && k < |line| ==> IsLineTerm(line[k])
    ensures r.None? <==> forall k :: lo <= k <= hi && k < |line| ==> IsLineTerm(line[k])
    decreases hi
  {
    if hi < |line| && !IsLineTerm(line[hi]) then Some(hi)
    else if hi == lo then None
    else LastUsable(line, lo, hi - 1)
  }

  /** The part of the pattern after the name, `\s*\(ID:\s*(w\d+)\)\s*-\s*(.+)`,
      once its leading white space has been taken: `p` is where `(ID:` must
      start. Every quantifier in it but the last `\s*` is followed by a
      character it cannot match, so only that one backtracks. The result is
      the id capture and the reason capture. */
  function TailFrom(line: string, p: nat): (r: Option<(string, string)>)
    requires p <= |line|
    ensures r.Some? ==> IsId(r.value.0) && |r.value.1| > 0 && OneLine(r.value.1)
  {
    if !HasAt(line, p, "(ID:") then None else IdPart(line, SpaceRunEnd(line, p + 4))
  }

  /** `(w\d+)\)` from `q`, then the reason part after the closing
      parenthesis and its white space. */
  function IdPart(line: string, q: nat): (r: Option<(string, string)>)
    requires q <= |line|
    ensures r.Some? ==> IsId(r.value.0) && |r.value.1| > 0 && OneLine(r.value.1)
  {
    if q == |line| || line[q] != 'w' then None
    else
      var e := DigitRunEnd(line, q + 1);
      if e == q + 1 || e == |line| || line[e] != ')' then None
      else
        assert line[q..e][1..] == line[q + 1..e];
        match ReasonPart(line, SpaceRunEnd(line, e + 1))
        case None => None
        case Some(reason) => Some((line[q..e], reason))
  }

  /** `-\s*(.+)` from `f`: the reason capture. */
  function ReasonPart(line: string, f: nat): (r: Option<string>)
    requires f <= |line|
    ensures r.Some? ==> |r.value| > 0 && OneLine(r.value)
  {
    if f == |line| || line[f] != '-' then None
    else
      match LastUsable(line, f + 1, SpaceRunEnd(line, f + 1))
      case None => None
      case Some(k) => Some(RestOfLine(line, k))
  }

  /** A greedy `.+` from `k`: the text up to the next line terminator. */
  function RestOfLine(line: string, k: nat): (r: string)
    requires k < |line| && !IsLineTerm(line[k])
    ensures |r| > 0 && OneLine(r) && r == line[k..LineEnd(line, k)]
  {
    var r := line[k..LineEnd(line, k)];
    assert r[0] == line[k];
    assert OneLine(r) by {
      forall i | 0 <= i < |r| ensures !IsLineTerm(r[i]) {
        assert r[i] == line[k + i];
      }
    }
    r
  }

  /** The lazy `(.+?)`: the shortest name ending at or after `n` (the name
      started at `n - 1`) without a line terminator, after which the rest of
      the pattern matches. The result is where the name ends and the tail's
      captures. */
  function LazyName(line: string, n: nat): (r: Option<(nat, (string, string))>)
    requires 0 < n <= |line|
    ensures r.Some? ==> n <= r.value.0 <= |line|
    ensures r.Some? ==> forall k :: n - 1 <= k < r.value.0 ==> !IsLineTerm(line[k])
    decreases |line| - n
  {
    if IsLineTerm(line[n - 1]) then None
    else
      var t := TailFrom(line, SpaceRunEnd(line, n));
      if t.Some? then Some((n, t.value))
      else if n == |line| then None
      else LazyName(line, n + 1)
  }

  /** The captures the lazy name reports are those of the rest of the
      pattern matched after the name's end. */
  lemma {:induction false} LazyNameTail(line: string, n: nat)
    requires 0 < n <= |line|
    ensures var r := LazyName(line, n);
            r.Some? ==> TailFrom(line, SpaceRunEnd(line, r.value.0)) == Some(r.value.1)
    decreases |line| - n
  {
    if !IsLineTerm(line[n - 1]) && TailFrom(line, SpaceRunEnd(line, n)).None? && n < |line| {
      LazyNameTail(line, n + 1);
    }
  }

  /** The rest of the pattern matches after a name ending at `m`. */
  predicate TailAfter(line: string, m: nat)
    requires m <= |line|
  {
    TailFrom(line, SpaceRunEnd(line, m)).Some?
  }

  /** The lazy name is the shortest: no earlier end lets the rest match. */
  lemma {:induction false} LazyNameShortest(line: string, n: nat)
    requires 0 < n <= |line|
    ensures var r := LazyName(line, n);
            r.Some? ==> forall m :: n <= m < r.value.0 ==> !TailAfter(line, m)
    decreases |line| - n
  {
    if !IsLineTerm(line[n - 1]) && !TailAfter(line, n) && n < |line| {
      LazyNameShortest(line, n + 1);
    }
  }

  /** Where the name may start: after `^\d+\.` and the greedy `\s*`.
      The result is the end of the digits and the end of the white space. */
  function Head(line: string): (r: Option<(nat, nat)>)
    ensures r.Some? ==> Numbered(line) && r.value.0 + 1 <= r.value.1 <= |line|
  {
    var e0 := DigitRunEnd(line, 0);
    if e0 == 0 || e0 == |line| || line[e0] != '.' then None
    else Some((e0, SpaceRunEnd(line, e0 + 1)))
  }

  /** `line.match(…)`: the captures, or nothing. */
  function MatchLine(line: string): (r: Option<LineMatch>)
    ensures r.Some? ==> Numbered(line) && Captures(r.value)
  {
    match Head(line)
    case None => None
    case Some(h) => MatchAfterHead(line, h.0, h.1)
  }

  /** The match once the number, its full stop and the white space after
      them end at `a`: a name starting at `a` if one works, else one given
      back by the white space. */
  function MatchAfterHead(line: string, e0: nat, a: nat): (r: Option<LineMatch>)
    requires e0 + 1 <= a <= |line|
    ensures r.Some? ==> Captures(r.value)
  {
    if a < |line| && LazyName(line, a + 1).Some? then Some(NameMatch(line, a))
    else GiveBack(line, e0, a)
  }

  /** The captures when the name starts where the white space after the
      number ends. */
  function NameMatch(line: string, a: nat): (r: LineMatch)
    requires a < |line| && LazyName(line, a + 1).Some?
    ensures Captures(r)
  {
    LazyNameTail(line, a + 1);
    var (m, t) := LazyName(line, a + 1).value;
    LineMatch(Slice(line, a, m), t.0, t.1)
  }

  /** When no name starting after the white space works, the greedy `\s*`
      gives back characters: the name becomes the last one `.` matches, and
      the rest of the pattern must match after that white space. */
  function GiveBack(line: string, e0: nat, a: nat): (r: Option<LineMatch>)
    requires e0 + 1 <= a <= |line|
    ensures r.Some? ==> Captures(r.value)
  {
    if a == e0 + 1 then None
    else
      match LastUsable(line, e0 + 1, a - 1)
      case None => None
      case Some(k) =>
        match TailFrom(line, a)
        case None => None
        case Some(t) => Some(LineMatch(Slice(line, k, k + 1), t.0, t.1))
  }

  /** A piece of a line without line terminators. */
  function Slice(line: string, i: nat, j: nat): (r: string)
    requires i < j <= |line|
    requires forall k :: i <= k < j ==> !IsLineTerm(line[k])
    ensures |r| > 0 && OneLine(r) && r == line[i..j]
  {
    var r := line[i..j];
    assert OneLine(r) by {
      forall k | 0 <= k < |r| ensures !IsLineTerm(r[k]) {
        assert r[k] == line[i + k];
      }
    }
    r
  }

  /** A numbered line that passes the filter only because of its trimming is
      still dropped: the pattern is matched against the untrimmed line. */
  lemma IndentedLineDropped(line: string)
    requires |line| > 0 && IsSpace(line[0])
    ensures MatchLine(line).None?
  {
    assert DigitRunEnd(line, 0) == 0;
  }

  /** One kept line: the whiskey the id names, with the trimmed reason, or
      nothing when the line does not match or the id is unknown. */
  function ParseLine(st: Store<PriceTier>, line: string): (r: Option<Recommendation<PriceTier>>)
    ensures r.Some? ==> WhiskeyById(st, r.value.whiskey.id) == Some(r.value.whiskey)
    ensures r.Some? ==> |r.value.reason| == 0 || (!IsSpace(r.value.reason[0]) && !IsSpace(r.value.reason[|r.value.reason| - 1]))
    ensures r.Some? <==> MatchLine(line).Some? && WhiskeyById(st, Trim(MatchLine(line).value.id)).Some?
  {
    match MatchLine(line)
    case None => None
    case Some(m) =>
      match WhiskeyById(st, Trim(m.id))
      case None => None
      case Some(w) => Some(Recommendation(w, Trim(m.reason)))
  }

  /** The kept lines of a reply, in order. */
  function Candidates(text: string): (ls: seq<string>)
    ensures forall l :: l in ls <==> l in Split(text, '\n') && IsCandidate(l)
  {
    Filter(Split(text, '\n'), IsCandidate)
  }

  /** `parseAgenticaResponse`: one recommendation per kept line that matches
      and names a known whiskey, in line order. */
  function ParseResponse(st: Store<PriceTier>, text: string): (r: seq<Recommendation<PriceTier>>)
    ensures |r| <= |Candidates(text)|
    ensures forall rec :: rec in r ==> WhiskeyById(st, rec.whiskey.id) == Some(rec.whiskey)
    ensures forall l :: l in Candidates(text) && ParseLine(st, l).Some? ==> ParseLine(st, l).value in r
    ensures forall rec :: rec in r ==> exists l :: l in Candidates(text) && ParseLine(st, l) == Some(rec)
  {
    FilterMap(Candidates(text), Reader(st))
  }

  /** A text of one line gives its reading when the line is kept and reads,
      and nothing otherwise. */
  lemma ParseOneLine(st: Store<PriceTier>, line: string)
    requires '\n' !in line
    ensures ParseResponse(st, line) ==
              if IsCandidate(line) && ParseLine(st, line).Some? then [ParseLine(st, line).value] else []
  {
    SplitNoSep(line, '\n');
    var kept := if IsCandidate(line) then [line] else [];
    assert Candidates(line) == kept by {
      assert [line][1..] == [];
      assert Filter([line], IsCandidate) == (if IsCandidate(line) then [line] else []) + Filter([line][1..], IsCandidate);
    }
    if IsCandidate(line) {
      assert FilterMap([line], Reader(st)) == (if ParseLine(st, line).Some? then [ParseLine(st, line).value] else [])
                                             + FilterMap([line][1..], Reader(st));
    }
  }

  /** Reading two texts joined by a line break is reading each in turn: one
      entry per line, in line order, repeats kept. */
  lemma ParseConcat(st: Store<PriceTier>, a: string, b: string)
    ensures ParseResponse(st, a + "\n" + b) == ParseResponse(st, a) + ParseResponse(st, b)
  {
    SplitConcat(a, '\n', b);
    FilterConcat(Split(a, '\n'), Split(b, '\n'), IsCandidate);
    FilterMapConcat(Candidates(a), Candidates(b), Reader(st));
  }

  /** The per-line reading as a function value. */
  function Reader(st: Store<PriceTier>): (f: string -> Option<Recommendation<PriceTier>>)
    ensures forall line :: f(line) == ParseLine(st, line)
  {
    (line: string) => ParseLine(st, line)
  }

  // ---------------------------------------------------------------------
  // The reply the agent writes is read back as the recommendations it lists

  /** Non-empty, on one line, without white space at either end. */
  predicate TrimmedLine(s: string)
  {
    |s| > 0 && OneLine(s) && !IsSpace(s[0]) && !IsSpace(s[|s| - 1])
  }

  /** What the reader needs of the text of one listed recommendation: the
      id has the `w<digits>` shape, the name is a trimmed line without
      `(ID:`, and the reason is a trimmed line. */
  predicate Listable(rec: Recommendation<PriceTier>)
  {
    && IsId(rec.whiskey.id)
    && TrimmedLine(rec.whiskey.name) && !Contains(rec.whiskey.name, "(ID:")
    && TrimmedLine(rec.reason)
  }

  /** A listable recommendation whose whiskey the catalogue finds by its id. */
  predicate Readable(st: Store<PriceTier>, rec: Recommendation<PriceTier>)
  {
    WhiskeyById(st, rec.whiskey.id) == Some(rec.whiskey) && Listable(rec)
  }

  /** `- <reason>` from `f` gives back the reason. */
  lemma ReasonPartOf(s: string, p: string, f: nat, reason: string)
    requires s == p + ("- " + reason) && f == |p|
    requires TrimmedLine(reason)
    ensures ReasonPart(s, f) == Some(reason)
  {
    var t := "- " + reason;
    assert s[f] == t[0] == '-';
    assert s[f + 1] == t[1] == ' ';
    assert s[f + 2] == t[2] == reason[0];
    SpaceRunEndIs(s, f + 1, f + 2);
    LineTermIsSpace(reason[0]);
    assert LastUsable(s, f + 1, f + 2) == Some(f + 2);
    forall k | f + 2 <= k < |s| ensures !IsLineTerm(s[k]) {
      assert s[k] == reason[k - f - 2];
    }
    LineEndIs(s, f + 2, |s|);
    assert s[f + 2..] == reason;
    assert RestOfLine(s, f + 2) == reason;
  }

  /** `<id>) - <reason>` from `q` gives back the id and the reason. */
  lemma IdPartOf(s: string, p: string, q: nat, id: string, reason: string)
    requires s == p + (id + ") " + ("- " + reason)) && q == |p|
    requires IsId(id) && TrimmedLine(reason)
    ensures IdPart(s, q) == Some((id, reason))
  {
    var d := |id|;
    IdPieces(s, p, q, d, id, reason);
    ReasonAfterId(s, p, q, d, id, reason);
    IdPartFrom(s, q, d, id, reason);
  }

  /** Where the pieces of `<id>) ` sit in a line: the id at `q`, `d`
      characters long. */
  lemma IdPieces(s: string, p: string, q: nat, d: nat, id: string, reason: string)
    requires s == p + (id + ") " + ("- " + reason)) && q == |p| && d == |id|
    ensures q + d + 2 < |s| && s[q..q + d] == id
    ensures s[q + d] == ')' && s[q + d + 1] == ' '
  {
  }

  /** The reason part follows `<id>) `. */
  lemma ReasonAfterId(s: string, p: string, q: nat, d: nat, id: string, reason: string)
    requires s == p + (id + ") " + ("- " + reason)) && q == |p| && d == |id|
    requires TrimmedLine(reason)
    ensures ReasonPart(s, q + d + 2) == Some(reason)
  {
    assert s == (p + id + ") ") + ("- " + reason);
    ReasonPartOf(s, p + id + ") ", q + d + 2, reason);
  }

  /** The id part read off a line whose pieces are located. */
  lemma IdPartFrom(line: string, q: nat, d: nat, id: string, reason: string)
    requires IsId(id) && |id| == d
    requires q + d + 2 < |line| && line[q..q + d] == id
    requires line[q + d] == ')' && line[q + d + 1] == ' '
    requires ReasonPart(line, q + d + 2) == Some(reason)
    ensures IdPart(line, q) == Some((id, reason))
  {
    assert line[q] == id[0] == 'w';
    forall k | q + 1 <= k < q + d ensures IsDigit(line[k]) {
      assert line[k] == id[k - q] == id[1..][k - q - 1];
    }
    DigitRunEndIs(line, q + 1, q + d);
    assert ReasonPart(line, q + d + 2).Some?;
    assert line[q + d + 2] == '-';
    SpaceRunEndIs(line, q + d + 1, q + d + 2);
    IdPartAt(line, q, q + d, q + d + 2, reason);
  }

  /** The id part read off once its pieces are located. */
  lemma IdPartAt(line: string, q: nat, e: nat, f: nat, reason: string)
    requires q + 1 < e < |line| && line[q] == 'w' && line[e] == ')'
    requires DigitRunEnd(line, q + 1) == e
    requires f <= |line| && SpaceRunEnd(line, e + 1) == f
    requires ReasonPart(line, f) == Some(reason)
    ensures IdPart(line, q) == Some((line[q..e], reason))
  {
  }

  /** The tail of a listed line, `(ID: <id>) - <reason>`, gives back the id
      and the reason. */
  lemma TailFromOf(s: string, p: string, n: nat, id: string, reason: string)
    requires s == p + ("(ID: " + id + ") - " + reason) && n == |p|
    requires IsId(id) && TrimmedLine(reason)
    ensures TailFrom(s, n) == Some((id, reason))
  {
    assert s == (p + "(ID: ") + (id + ") " + ("- " + reason));
    assert s[n..n + 4] == "(ID:";
    assert s[n + 4] == ' ' && s[n + 5] == id[0] == 'w';
    SpaceRunEndIs(s, n + 4, n + 5);
    IdPartOf(s, p + "(ID: ", n + 5, id, reason);
  }

  /** No position inside a name without `(ID:` starts a tail that matches,
      so the lazy name cannot stop early. */
  lemma NoTailInName(line: string, p: string, name: string, t: string, j: nat)
    requires line == p + name + t
    requires |name| > 0 && !IsSpace(name[|name| - 1]) && !Contains(name, "(ID:")
    requires |t| > 0 && t[0] == ' '
    requires |p| <= j < |p| + |name|
    ensures !TailAfter(line, j)
  {
    var end := |p| + |name|;
    var i := SpaceRunEnd(line, j);
    assert line[end - 1] == name[|name| - 1];
    assert i < end;
    assert !HasAt(name, i - |p|, "(ID:");
    if i + 4 <= end {
      assert line[i..i + 4] == name[i - |p|..i - |p| + 4];
    } else if i + 4 <= |line| {
      assert line[end] == t[0] == ' ';
      assert line[i..i + 4][end - i] == line[end];
      assert "(ID:"[end - i] != ' ';
    }
    assert !HasAt(line, i, "(ID:");
  }

  /** With neither a line terminator nor a matching tail before `m`, the
      lazy name reaches `m`. */
  lemma {:induction false} LazySkips(line: string, n: nat, m: nat)
    requires 0 < n <= m <= |line|
    requires forall j :: n - 1 <= j < m - 1 ==> !IsLineTerm(line[j])
    requires forall j :: n <= j < m ==> !TailAfter(line, j)
    ensures LazyName(line, n) == LazyName(line, m)
    decreases m - n
  {
    if n < m {
      assert !IsLineTerm(line[n - 1]);
      assert !TailAfter(line, n);
      LazySkips(line, n + 1, m);
    }
  }

  /** Inside a name without `(ID:` the lazy name started at `n` neither
      stops nor meets a line terminator, so it reaches the name's end `e`. */
  lemma LazyToNameEnd(line: string, pre: string, name: string, t: string, n: nat, e: nat)
    requires line == pre + name + t && n == |pre| + 1 && e == |pre| + |name|
    requires |name| > 0 && OneLine(name) && !IsSpace(name[|name| - 1]) && !Contains(name, "(ID:")
    requires |t| > 0 && t[0] == ' '
    ensures LazyName(line, n) == LazyName(line, e)
  {
    forall j | n - 1 <= j < e - 1 ensures !IsLineTerm(line[j]) {
      assert line[j] == name[j - |pre|];
    }
    forall j | n <= j < e ensures !TailAfter(line, j) {
      NoTailInName(line, pre, name, t, j);
    }
    LazySkips(line, n, e);
  }

  /** At the end `e` of the name the rest of the pattern matches. */
  lemma LazyAtNameEnd(line: string, q: string, e: nat, id: string, reason: string)
    requires line == q + (" " + ("(ID: " + id + ") - " + reason)) && e == |q|
    requires |q| > 0 && !IsLineTerm(q[|q| - 1])
    requires IsId(id) && TrimmedLine(reason)
    ensures LazyName(line, e) == Some((e, (id, reason)))
  {
    assert line[e - 1] == q[e - 1];
    assert line[e] == ' ' && line[e + 1] == '(';
    SpaceRunEndIs(line, e, e + 1);
    TailFromOf(line, q + " ", e + 1, id, reason);
  }

  /** The lazy name of a listed line, started at `n`, is exactly the
      whiskey's name, ending at `e`. */
  lemma LazyNameOfListed(line: string, pre: string, n: nat, e: nat, name: string, id: string, reason: string)
    requires line == pre + name + (" " + ("(ID: " + id + ") - " + reason))
    requires n == |pre| + 1 && e == |pre| + |name|
    requires TrimmedLine(name) && !Contains(name, "(ID:")
    requires IsId(id) && TrimmedLine(reason)
    ensures LazyName(line, n) == Some((e, (id, reason)))
  {
    LazyToNameEnd(line, pre, name, " " + ("(ID: " + id + ") - " + reason), n, e);
    LineTermIsSpace(name[|name| - 1]);
    LazyAtNameEnd(line, pre + name, e, id, reason);
  }

  /** The number and full stop at the head of a listed line: the digits end
      at `d`, the white space after the full stop at `a`. */
  lemma LineHead(s: string, k: nat, rest: string, d: nat, a: nat)
    requires s == NatToString(k) + ". " + rest && d == |NatToString(k)| && a == d + 2
    requires |rest| > 0 && !IsSpace(rest[0])
    ensures Head(s) == Some((d, a))
  {
    var ds := NatToString(k);
    forall i | 0 <= i < d ensures IsDigit(s[i]) {
      assert s[i] == ds[i];
    }
    assert s[d] == '.';
    DigitRunEndIs(s, 0, d);
    assert s[d + 1] == ' ';
    assert s[a] == rest[0];
    SpaceRunEndIs(s, d + 1, a);
  }

  /** A line in the listed form is matched with its name, id and reason as
      captures. */
  lemma MatchListed(line: string, k: nat, name: string, id: string, reason: string)
    requires line == NatToString(k) + ". " + (name + (" " + ("(ID: " + id + ") - " + reason)))
    requires TrimmedLine(name) && !Contains(name, "(ID:")
    requires IsId(id) && TrimmedLine(reason)
    ensures MatchLine(line) == Some(LineMatch(name, id, reason))
  {
    var d := |NatToString(k)|;
    var a := d + 2;
    var n := a + 1;
    var e := a + |name|;
    ListedPieces(line, k, name, id, reason, d, a, n, e);
    MatchFound(line, d, a, n, e, LineMatch(name, id, reason));
  }

  /** Where the head, the name and the lazy name's end sit in a listed line. */
  lemma ListedPieces(line: string, k: nat, name: string, id: string, reason: string, d: nat, a: nat, n: nat, e: nat)
    requires line == NatToString(k) + ". " + (name + (" " + ("(ID: " + id + ") - " + reason)))
    requires TrimmedLine(name) && !Contains(name, "(ID:")
    requires IsId(id) && TrimmedLine(reason)
    requires d == |NatToString(k)| && a == d + 2 && n == a + 1 && e == a + |name|
    ensures Head(line) == Some((d, a)) && a < e <= |line|
    ensures LazyName(line, n) == Some((e, (id, reason)))
    ensures line[a..e] == name
  {
    var pre := NatToString(k) + ". ";
    LineHead(line, k, name + (" " + ("(ID: " + id + ") - " + reason)), d, a);
    LazyNameOfListed(line, pre, n, e, name, id, reason);
    assert line[a..e] == name;
  }

  /** The match read off once the head and the lazy name are located. */
  lemma MatchFound(line: string, e0: nat, a: nat, n: nat, m: nat, c: LineMatch)
    requires Head(line) == Some((e0, a)) && a < m <= |line| && n == a + 1
    requires LazyName(line, n) == Some((m, (c.id, c.reason)))
    requires line[a..m] == c.name
    ensures MatchLine(line) == Some(c)
  {
    NameFound(line, e0, a, n, m, c);
  }

  /** A name starting at `a` that the lazy name accepts gives the match. */
  lemma NameFound(line: string, e0: nat, a: nat, n: nat, m: nat, c: LineMatch)
    requires e0 + 1 <= a < m <= |line| && n == a + 1
    requires LazyName(line, n) == Some((m, (c.id, c.reason)))
    requires line[a..m] == c.name
    ensures MatchAfterHead(line, e0, a) == Some(c)
  {
    assert LazyName(line, a + 1).Some?;
    assert NameMatch(line, a) == c;
  }

  /** A listed line is matched with its name, id and reason as captures. */
  lemma MatchRecLine(line: string, k: nat, rec: Recommendation<PriceTier>)
    requires line == RecLine(k, rec) && Listable(rec)
    ensures MatchLine(line) == Some(LineMatch(rec.whiskey.name, rec.whiskey.id, rec.reason))
  {
    MatchListed(line, k, rec.whiskey.name, rec.whiskey.id, rec.reason);
  }

  /** A listed line starts with a digit and ends with its reason's last
      character. */
  lemma RecLineEnds(line: string, k: nat, rec: Recommendation<PriceTier>)
    requires line == RecLine(k, rec) && |rec.reason| > 0
    ensures IsDigit(line[0]) && line[|line| - 1] == rec.reason[|rec.reason| - 1]
  {
    var ds := NatToString(k);
    assert line[0] == ds[0];
  }

  /** A listed line is its own trim, so the filter keeps it. */
  lemma RecLineKept(line: string, k: nat, rec: Recommendation<PriceTier>)
    requires line == RecLine(k, rec) && Listable(rec)
    ensures IsCandidate(line)
  {
    MatchRecLine(line, k, rec);
    RecLineEnds(line, k, rec);
    TrimOfTrimmed(line);
  }

  /** A listed line is read back as its recommendation. */
  lemma RecLineRead(st: Store<PriceTier>, line: string, k: nat, rec: Recommendation<PriceTier>)
    requires line == RecLine(k, rec) && Readable(st, rec)
    ensures ParseLine(st, line) == Some(rec)
  {
    MatchRecLine(line, k, rec);
    IdIsTrimmed(rec.whiskey.id);
    TrimOfTrimmed(rec.reason);
    ParseLineOf(st, line, LineMatch(rec.whiskey.name, rec.whiskey.id, rec.reason), rec.whiskey);
  }

  /** An id has no white space to trim. */
  lemma IdIsTrimmed(id: string)
    requires IsId(id)
    ensures Trim(id) == id
  {
    assert id[|id| - 1] == id[1..][|id| - 2];
    TrimOfTrimmed(id);
  }

  /** A matched line whose captures need no trimming and whose id is known
      is read as that whiskey with the reason capture. */
  lemma ParseLineOf(st: Store<PriceTier>, line: string, m: LineMatch, w: Whiskey<PriceTier>)
    requires MatchLine(line) == Some(m)
    requires Trim(m.id) == m.id && Trim(m.reason) == m.reason
    requires WhiskeyById(st, m.id) == Some(w)
    ensures ParseLine(st, line) == Some(Recommendation(w, m.reason))
  {
    var id := Trim(m.id);
    assert WhiskeyById(st, id) == Some(w);
  }

  /** The filter keeps every listed line. */
  lemma {:induction false} LinesKept(recs: seq<Recommendation<PriceTier>>, k: nat)
    requires forall i :: 0 <= i < |recs| ==> Listable(recs[i])
    ensures forall l :: l in LinesFrom(recs, k) ==> IsCandidate(l)
  {
    var ls := LinesFrom(recs, k);
    forall l | l in ls ensures IsCandidate(l) {
      var i :| 0 <= i < |ls| && ls[i] == l;
      LineKeptAt(recs, k, i);
    }
  }

  lemma LineKeptAt(recs: seq<Recommendation<PriceTier>>, k: nat, i: nat)
    requires i < |recs| && Listable(recs[i])
    ensures IsCandidate(LinesFrom(recs, k)[i])
  {
    RecLineKept(LinesFrom(recs, k)[i], k + i, recs[i]);
  }

  /** Reading the listed lines gives back the recommendations, in order. */
  lemma LinesRead(st: Store<PriceTier>, recs: seq<Recommendation<PriceTier>>, k: nat)
    requires forall i :: 0 <= i < |recs| ==> Readable(st, recs[i])
    ensures FilterMap(LinesFrom(recs, k), Reader(st)) == recs
  {
    var ls := LinesFrom(recs, k);
    forall i | 0 <= i < |ls| ensures Reader(st)(ls[i]) == Some(recs[i]) {
      RecLineRead(st, ls[i], k + i, recs[i]);
    }
    FilterMapAllKept(ls, Reader(st), recs);
  }

  lemma HeaderNotCandidate()
    ensures !IsCandidate(RecommendHeader) && !IsCandidate("")
  {
    TrimOfTrimmed(RecommendHeader);
    assert DigitRunEnd(RecommendHeader, 0) == 0;
  }

  lemma ListableNoNewline(rec: Recommendation<PriceTier>)
    requires Listable(rec)
    ensures NoNewline(rec)
  {
    var id := rec.whiskey.id;
    forall i | 0 <= i < |id| ensures id[i] != '\n' {
      if i > 0 { assert id[i] == id[1..][i - 1]; }
    }
    assert forall i :: 0 <= i < |rec.whiskey.name| ==> !IsLineTerm(rec.whiskey.name[i]);
    assert forall i :: 0 <= i < |rec.reason| ==> !IsLineTerm(rec.reason[i]);
  }

  /** Reading the reply the agent writes gives back the recommendations it
      lists, in order, whenever each is readable. */
  lemma FormatThenParse(st: Store<PriceTier>, recs: seq<Recommendation<PriceTier>>)
    requires forall i :: 0 <= i < |recs| ==> Readable(st, recs[i])
    ensures ParseResponse(st, FormatRecommendations(recs)) == recs
  {
    forall i | 0 <= i < |recs| ensures NoNewline(recs[i]) {
      ListableNoNewline(recs[i]);
    }
    var lines := LinesFrom(recs, 1);
    assert Split(FormatRecommendations(recs), '\n') == [RecommendHeader] + lines + [""];
    LinesKept(recs, 1);
    LinesRead(st, recs, 1);
    HeaderNotCandidate();
    FilterConcat([RecommendHeader] + lines, [""], IsCandidate);
    FilterConcat([RecommendHeader], lines, IsCandidate);
    FilterAllKept(lines, IsCandidate);
    assert Filter([RecommendHeader], IsCandidate) == [];
    assert Filter([""], IsCandidate) == [];
    assert Candidates(FormatRecommendations(recs)) == lines;
  }
}
