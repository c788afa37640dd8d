// The order of the lines in a results file does not matter to any figure of its report.
module ReportOrder {
  import opened Sockets
  import opened Records
  import opened Sorting
  import opened SingleRun
  import opened Grouping

  lemma {:induction false} OnStreamSplit(rs: seq<Record>, i: nat, s: StreamId)
    requires i < |rs|
    ensures multiset(OnStream(rs, s))
         == multiset(OnStream(rs[..i] + rs[i + 1..], s)) + (if rs[i].streamId == s then multiset{rs[i]} else multiset{})
  {
    var rest := rs[..i] + rs[i + 1..];
    if i == 0 {
      assert rest == rs[1..];
    } else {
      OnStreamSplit(rs[1..], i - 1, s);
      assert rest[0] == rs[0] && rest[1..] == rs[1..][..i - 1] + rs[1..][i..];
    }
  }

  lemma {:induction false} OnStreamPermuted(rs: seq<Record>, rs': seq<Record>, s: StreamId)
    requires multiset(rs) == multiset(rs')
    ensures multiset(OnStream(rs, s)) == multiset(OnStream(rs', s))
  {
    LengthPermuted(rs, rs');
    if rs != [] {
      assert rs[0] in multiset(rs');
      var i :| 0 <= i < |rs'| && rs'[i] == rs[0];
      RemoveBoth(rs, rs', i);
      OnStreamPermuted(rs[1..], rs'[..i] + rs'[i + 1..], s);
      OnStreamSplit(rs', i, s);
    }
  }

  lemma {:induction false} StreamIdsPermuted(rs: seq<Record>, rs': seq<Record>)
    requires multiset(rs) == multiset(rs')
    ensures StreamIds(rs) == StreamIds(rs')
  {
    hide OnStream, StreamIds;
    StreamIdsProperties(rs);
    StreamIdsProperties(rs');
    forall s ensures s in StreamIds(rs) <==> s in StreamIds(rs') {
      OnStreamPermuted(rs, rs', s);
      LengthPermuted(OnStream(rs, s), OnStream(rs', s));
    }
    IncreasingUnique(StreamIds(rs), StreamIds(rs'));
  }

  lemma {:induction false} GroupPermuted(g: seq<Record>, g': seq<Record>, sqrt: real -> real)
    requires multiset(g) == multiset(g')
    ensures SentOf(g) == SentOf(g') && LostOf(g) == LostOf(g') && GroupStats(g, sqrt) == GroupStats(g', sqrt)
  {
    hide Max, Project, ComputeSingleRun;
    LengthPermuted(g, g');
    if g != [] {
      ProjectPermuted(IdOf, g, g');
      ExtremesPermuted(Project(IdOf, g), Project(IdOf, g'));
    }
    OrderIndependent(SentOf(g), LostOf(g), g, g', sqrt);
  }

  lemma {:induction false} StreamsPermuted(rs: seq<Record>, rs': seq<Record>, ids: seq<StreamId>, sqrt: real -> real)
    requires multiset(rs) == multiset(rs')
    ensures StreamReports(rs, ids, sqrt) == StreamReports(rs', ids, sqrt)
    ensures SumOver(SentOf, rs, ids) == SumOver(SentOf, rs', ids)
    ensures SumOver(LostOf, rs, ids) == SumOver(LostOf, rs', ids)
  {
    hide OnStream, SentOf, LostOf, GroupStats;
    if ids != [] {
      StreamsPermuted(rs, rs', ids[1..], sqrt);
      OnStreamPermuted(rs, rs', ids[0]);
      GroupPermuted(OnStream(rs, ids[0]), OnStream(rs', ids[0]), sqrt);
    }
  }

  // Rearranging the records changes nothing in the report.
  lemma {:induction false} ReportOrderIndependent(rs: seq<Record>, rs': seq<Record>, sqrt: real -> real)
    requires multiset(rs) == multiset(rs')
    ensures Analyze(rs, sqrt) == Analyze(rs', sqrt)
  {
    hide OnStream, StreamIds, StreamReports, SumOver, ComputeSingleRun;
    LengthPermuted(rs, rs');
    StreamIdsPermuted(rs, rs');
    StreamsPermuted(rs, rs', StreamIds(rs), sqrt);
    OrderIndependent(SumOver(SentOf, rs, StreamIds(rs)), SumOver(LostOf, rs, StreamIds(rs)), rs, rs', sqrt);
  }
}
