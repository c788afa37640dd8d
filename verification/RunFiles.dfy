// Which results files belong to which protocol: `discover_protocols` and `find_run_files`.
//
// A directory is the list of the stems of its CSV files.
module RunFiles {
  const MARK: string := "_run"

  // stem.split("_run").next(), which is all of a stem without the mark.
  function ProtocolOf(stem: string): string {
    if stem == "" || MARK <= stem then "" else [stem[0]] + ProtocolOf(stem[1..])
  }

  predicate Matches(stem: string, protocol: string) {
    stem == protocol || protocol + MARK <= stem
  }

  // The order of strings is that of their code points.
  predicate Less(a: string, b: string) {
    if b == "" then false
    else if a == "" then true
    else a[0] < b[0] || (a[0] == b[0] && Less(a[1..], b[1..]))
  }

  function InsertName(x: string, xs: seq<string>): seq<string> {
    if xs == [] || !Less(xs[0], x) then [x] + xs else [xs[0]] + InsertName(x, xs[1..])
  }

  // dedup() drops repeats that stand next to each other.
  function Dedup(xs: seq<string>): seq<string> {
    if |xs| < 2 then xs
    else if xs[0] == xs[1] then Dedup(xs[1..])
    else [xs[0]] + Dedup(xs[1..])
  }

  function SortedProtocols(stems: seq<string>): seq<string> {
    if stems == [] then [] else InsertName(ProtocolOf(stems[0]), SortedProtocols(stems[1..]))
  }

  function Discover(stems: seq<string>): seq<string> {
    Dedup(SortedProtocols(stems))
  }

  function FindRunFiles(stems: seq<string>, protocol: string): seq<string> {
    if stems == [] then []
    else if Matches(stems[0], protocol) then [stems[0]] + FindRunFiles(stems[1..], protocol)
    else FindRunFiles(stems[1..], protocol)
  }

  // ------------------------------------------------------------------
  // The first mark
  // ------------------------------------------------------------------

  predicate MarkAt(s: string, i: nat) {
    i + 4 <= |s| && s[i..i + 4] == MARK
  }

  ghost predicate Unmarked(s: string) {
    forall i: nat :: !MarkAt(s, i)
  }

  // The protocol is what stands before the first mark.
  lemma {:induction false} BeforeFirstMark(stem: string)
    ensures var n := |ProtocolOf(stem)|;
      && n <= |stem| && ProtocolOf(stem) == stem[..n]
      && (n == |stem| || MarkAt(stem, n))
      && forall i: nat :: i < n ==> !MarkAt(stem, i)
  {
    if stem != "" && !(MARK <= stem) {
      BeforeFirstMark(stem[1..]);
      var n := |ProtocolOf(stem)|;
      forall i: nat | i < n ensures !MarkAt(stem, i) {
        if i > 0 {
          ShiftMark(stem, i);
        }
      }
      if n < |stem| {
        ShiftMark(stem, n);
      }
    }
  }

  lemma {:induction false} ShiftMark(s: string, i: nat)
    requires 0 < i && s != ""
    ensures MarkAt(s, i) <==> MarkAt(s[1..], i - 1)
  {
    if i + 4 <= |s| {
      assert s[1..][i - 1..i + 3] == s[i..i + 4];
    }
  }

  lemma {:induction false} ProtocolsUnmarked(stem: string)
    ensures Unmarked(ProtocolOf(stem))
  {
    BeforeFirstMark(stem);
    forall i: nat ensures !MarkAt(ProtocolOf(stem), i) {
      MarkInPrefix(stem, ProtocolOf(stem), i);
    }
  }

  // "_run" has no proper suffix that is also a prefix, so two marks never overlap.
  lemma {:induction false} MarksDisjoint(s: string, i: nat, j: nat)
    requires MarkAt(s, i) && MarkAt(s, j) && i < j
    ensures i + 4 <= j
  {
    MarkSpelled(s, i);
    MarkSpelled(s, j);
  }

  lemma {:induction false} MarkSpelled(s: string, i: nat)
    requires MarkAt(s, i)
    ensures s[i] == '_' && s[i + 1] == 'r' && s[i + 2] == 'u' && s[i + 3] == 'n'
  {
    assert s[i..i + 4][0] == '_' && s[i..i + 4][1] == 'r' && s[i..i + 4][2] == 'u' && s[i..i + 4][3] == 'n';
  }

  lemma {:induction false} MarkInPrefix(s: string, p: string, i: nat)
    requires p <= s
    ensures MarkAt(p, i) <==> MarkAt(s, i) && i + 4 <= |p|
  {
    if i + 4 <= |p| {
      assert p[i..i + 4] == s[i..i + 4];
    }
  }

  // Among names without a mark, a stem matches its own protocol and no other.
  lemma {:induction false} MatchesOnlyItsProtocol(stem: string, p: string)
    requires Unmarked(p)
    ensures Matches(stem, p) <==> p == ProtocolOf(stem)
  {
    BeforeFirstMark(stem);
    var n := |ProtocolOf(stem)|;
    if n < |stem| {
      assert stem[..n] + MARK <= stem;
    }
    if stem == p {
      assert n == |stem|;
    } else if p + MARK <= stem {
      assert stem[..|p|] == p && MarkAt(stem, |p|);
      MarkInPrefix(stem, p, n);
      if n < |p| {
        MarksDisjoint(stem, n, |p|);
      }
    }
  }

  // ------------------------------------------------------------------
  // The list of protocols
  // ------------------------------------------------------------------

  lemma {:induction false} LessTotal(a: string, b: string)
    ensures a == b || Less(a, b) || Less(b, a)
    ensures !(Less(a, b) && Less(b, a))
    ensures !Less(a, a)
  {
    if a != "" {
      LessTotal(a[1..], if b == "" then "" else b[1..]);
      if b != "" && a[0] == b[0] && a[1..] == b[1..] {
        assert a == [a[0]] + a[1..] && b == [b[0]] + b[1..];
      }
    }
  }

  lemma {:induction false} LessTransitive(a: string, b: string, c: string)
    requires Less(a, b) && Less(b, c)
    ensures Less(a, c)
  {
    if a != "" && a[0] == b[0] == c[0] {
      LessTransitive(a[1..], b[1..], c[1..]);
    }
  }

  ghost predicate Ascending(xs: seq<string>) {
    forall i :: 0 <= i < |xs| - 1 ==> !Less(xs[i + 1], xs[i])
  }

  ghost predicate Strict(xs: seq<string>) {
    forall i, j :: 0 <= i < j < |xs| ==> Less(xs[i], xs[j])
  }

  lemma {:induction false} InsertNameProperties(x: string, xs: seq<string>)
    requires Ascending(xs)
    ensures Ascending(InsertName(x, xs))
    ensures forall y :: y in InsertName(x, xs) <==> y == x || y in xs
    ensures InsertName(x, xs) != [] && (InsertName(x, xs)[0] == x || (xs != [] && InsertName(x, xs)[0] == xs[0]))
  {
    hide Less;
    if xs != [] && Less(xs[0], x) {
      InsertNameProperties(x, xs[1..]);
      LessTotal(xs[0], x);
      assert xs == [xs[0]] + xs[1..];
    }
  }

  lemma {:induction false} DedupProperties(xs: seq<string>)
    requires Ascending(xs)
    ensures Strict(Dedup(xs))
    ensures forall y :: y in Dedup(xs) <==> y in xs
    ensures xs != [] ==> Dedup(xs) != [] && Dedup(xs)[0] == xs[0]
  {
    hide Less;
    if |xs| >= 2 {
      DedupProperties(xs[1..]);
      assert xs == [xs[0]] + xs[1..];
      LessTotal(xs[0], xs[1]);
      var rest := Dedup(xs[1..]);
      if xs[0] != xs[1] {
        assert !Less(xs[1], xs[0]);
        forall j | 0 <= j < |rest| ensures Less(xs[0], rest[j]) {
          if j > 0 {
            LessTransitive(xs[0], rest[0], rest[j]);
          }
        }
      }
    }
  }

  lemma {:induction false} SortedProtocolsProperties(stems: seq<string>)
    ensures Ascending(SortedProtocols(stems))
    ensures forall p :: p in SortedProtocols(stems) <==> exists k :: 0 <= k < |stems| && p == ProtocolOf(stems[k])
  {
    hide Ascending, ProtocolOf;
    if stems == [] {
      assert Ascending(SortedProtocols([])) by { NoneAscending(); }
    } else {
      SortedProtocolsProperties(stems[1..]);
      InsertNameProperties(ProtocolOf(stems[0]), SortedProtocols(stems[1..]));
      forall p ensures p in SortedProtocols(stems) <==> exists k :: 0 <= k < |stems| && p == ProtocolOf(stems[k]) {
        ProtocolAmong(stems, p);
      }
    }
  }

  lemma NoneAscending()
    ensures Ascending([])
  {
  }

  lemma {:induction false} ProtocolAmong(stems: seq<string>, p: string)
    requires stems != []
    ensures (exists k :: 0 <= k < |stems| && p == ProtocolOf(stems[k]))
       <==> (p == ProtocolOf(stems[0]) || exists k :: 0 <= k < |stems[1..]| && p == ProtocolOf(stems[1..][k]))
  {
    hide ProtocolOf;
    if k :| 0 <= k < |stems| && p == ProtocolOf(stems[k]) {
      if k > 0 {
        assert stems[1..][k - 1] == stems[k];
      }
    }
    if k :| 0 <= k < |stems[1..]| && p == ProtocolOf(stems[1..][k]) {
      assert stems[k + 1] == stems[1..][k];
    }
  }

  lemma {:induction false} FoundFiles(stems: seq<string>, protocol: string)
    ensures forall stem :: stem in FindRunFiles(stems, protocol) <==> stem in stems && Matches(stem, protocol)
  {
    hide Matches;
    if stems != [] {
      FoundFiles(stems[1..], protocol);
      assert stems == [stems[0]] + stems[1..];
    }
  }

  // Each matching file is listed as often as the directory has it, and no other.
  lemma {:induction false} FoundOnce(stems: seq<string>, protocol: string, stem: string)
    ensures multiset(FindRunFiles(stems, protocol))[stem]
         == if Matches(stem, protocol) then multiset(stems)[stem] else 0
  {
    hide Matches;
    if stems != [] {
      FoundOnce(stems[1..], protocol, stem);
      assert stems == [stems[0]] + stems[1..];
    }
  }

  // The protocols are listed once each, in order; every file is found for exactly one of
  // them; and no protocol is without files.
  lemma {:induction false} FilesPartitioned(stems: seq<string>)
    ensures var protocols := Discover(stems);
      && Strict(protocols)
      && (forall k :: 0 <= k < |stems| ==>
            && ProtocolOf(stems[k]) in protocols
            && forall p :: p in protocols ==> (stems[k] in FindRunFiles(stems, p) <==> p == ProtocolOf(stems[k])))
      && (forall p :: p in protocols ==> FindRunFiles(stems, p) != [])
  {
    hide Matches, ProtocolOf, Ascending, Strict, FindRunFiles;
    var protocols := Discover(stems);
    SortedProtocolsProperties(stems);
    DedupProperties(SortedProtocols(stems));
    forall k, p | 0 <= k < |stems| && p in protocols
      ensures stems[k] in FindRunFiles(stems, p) <==> p == ProtocolOf(stems[k])
    {
      var j :| 0 <= j < |stems| && p == ProtocolOf(stems[j]);
      ProtocolsUnmarked(stems[j]);
      MatchesOnlyItsProtocol(stems[k], p);
      FoundFiles(stems, p);
    }
    forall p | p in protocols ensures FindRunFiles(stems, p) != [] {
      var j :| 0 <= j < |stems| && p == ProtocolOf(stems[j]);
      assert stems[j] in FindRunFiles(stems, p);
    }
  }
}
