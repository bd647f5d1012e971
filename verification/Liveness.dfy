/** gateway/app.py: from a position to its decision to its thesis, read off the stored events. */
module Liveness {
  import opened Events
  import opened Startup

  /** In seconds, the unit of the time to live. */
  const HOUR := 3600
  const DEFAULT_HOURS := 8

  /** The stored events that startup reads about theses. A proposal and its verdicts all carry the whole decision;
      `thesis` is empty where one names no thesis. */
  datatype Record =
    | ThesisCreated(id: string, hours: Option<int>, time: int)
    | ThesisEnded(thesis: string)
    | DecisionSeen(id: string, thesis: string)

  function EndOf(r: Record): int
    requires r.ThesisCreated?
  {
    r.time + (if r.hours.Some? then r.hours.value else DEFAULT_HOURS) * HOUR
  }

  // ---------- what the walk collects ----------

  /** The thesis of each decision; the last event of a decision overwrites the earlier ones. */
  function Origin(records: seq<Record>): map<string, string> {
    if records == [] then map[] else Remember(Origin(records[..|records| - 1]), records[|records| - 1])
  }

  function Remember(origin: map<string, string>, r: Record): map<string, string> {
    if !r.DecisionSeen? || r.id == "" then origin
    else if r.thesis == "" then origin - {r.id}
    else origin[r.id := r.thesis]
  }

  function Invalidated(records: seq<Record>): set<string> {
    set r | r in records && r.ThesisEnded? && r.thesis != "" :: r.thesis
  }

  /** When each thesis runs out; a repeated creation overwrites. */
  function Ends(records: seq<Record>): map<string, int> {
    if records == [] then map[] else Schedule(Ends(records[..|records| - 1]), records[|records| - 1])
  }

  function Schedule(ends: map<string, int>, r: Record): map<string, int> {
    if r.ThesisCreated? && r.id != "" then ends[r.id := EndOf(r)] else ends
  }

  function Collect(records: seq<Record>): ThesisHistory {
    ThesisHistory(Origin(records), Invalidated(records), Ends(records))
  }

  /** The maps are filled record by record. */
  method CollectTheses(records: seq<Record>) returns (th: ThesisHistory)
    ensures th == Collect(records)
  {
    var origin: map<string, string> := map[];
    var ends: map<string, int> := map[];
    assert records[..0] == [];
    for i := 0 to |records|
      invariant origin == Origin(records[..i]) && ends == Ends(records[..i])
    {
      assert records[..i + 1][..i] == records[..i];
      match records[i] {
        case DecisionSeen(id, thesis) =>
          if id != "" && thesis != "" {
            origin := origin[id := thesis];
          } else if id != "" {
            origin := origin - {id};
          }
        case ThesisCreated(id, _, _) =>
          if id != "" {
            ends := ends[id := EndOf(records[i])];
          }
        case _ =>
      }
    }
    assert records[..|records|] == records;
    th := ThesisHistory(origin, Invalidated(records), ends);
  }

  // ---------- what it means ----------

  /** The `k`th record is the last of its kind. */
  ghost predicate IsLast(records: seq<Record>, k: int, p: Record -> bool) {
    0 <= k < |records| && p(records[k]) && forall j :: k < j < |records| ==> !p(records[j])
  }

  function Names(decision: string): Record -> bool {
    (r: Record) => r.DecisionSeen? && r.id == decision
  }

  function Creates(thesis: string): Record -> bool {
    (r: Record) => r.ThesisCreated? && r.id == thesis
  }

  /** The last that was heard of the decision names this thesis. */
  ghost predicate Governed(records: seq<Record>, decision: string, thesis: string) {
    decision != "" && thesis != "" && exists k :: IsLast(records, k, Names(decision)) && records[k].thesis == thesis
  }

  ghost predicate EndsAt(records: seq<Record>, thesis: string, end: int) {
    thesis != "" && exists k :: IsLast(records, k, Creates(thesis)) && EndOf(records[k]) == end
  }

  predicate EverEnded(records: seq<Record>, thesis: string) {
    ThesisEnded(thesis) in records
  }

  /** The decision's thesis was created, has never been invalidated and has not run out. */
  ghost predicate Alive(records: seq<Record>, decision: string, now: int) {
    exists thesis, end ::
      Governed(records, decision, thesis) && EndsAt(records, thesis, end) && !EverEnded(records, thesis) && now < end
  }

  lemma IsLastOne(records: seq<Record>, r: Record, k: int, p: Record -> bool)
    ensures IsLast(records + [r], k, p) <==> if p(r) then k == |records| else IsLast(records, k, p)
  {
    var all := records + [r];
    assert all[|records|] == r;
    if IsLast(records, k, p) && !p(r) {
      assert all[k] == records[k];
      forall j | k < j < |all| ensures !p(all[j]) {
        if j < |records| { assert all[j] == records[j]; }
      }
    }
    if IsLast(all, k, p) && k < |records| {
      assert all[k] == records[k];
      forall j | k < j < |records| ensures !p(records[j]) { assert all[j] == records[j]; }
    }
  }

  lemma GovernedOne(records: seq<Record>, r: Record, decision: string, thesis: string)
    requires decision != "" && thesis != ""
    ensures Governed(records + [r], decision, thesis)
            <==> if Names(decision)(r) then r.thesis == thesis else Governed(records, decision, thesis)
  {
    forall k
      ensures IsLast(records + [r], k, Names(decision))
              <==> if Names(decision)(r) then k == |records| else IsLast(records, k, Names(decision))
    {
      IsLastOne(records, r, k, Names(decision));
    }
    assert (records + [r])[|records|] == r;
    if Governed(records, decision, thesis) && !Names(decision)(r) {
      var k :| IsLast(records, k, Names(decision)) && records[k].thesis == thesis;
      assert IsLast(records + [r], k, Names(decision)) && (records + [r])[k] == records[k];
    }
    if Names(decision)(r) { assert IsLast(records + [r], |records|, Names(decision)); }
  }

  lemma EndsAtOne(records: seq<Record>, r: Record, thesis: string, end: int)
    requires thesis != ""
    ensures EndsAt(records + [r], thesis, end)
            <==> if Creates(thesis)(r) then EndOf(r) == end else EndsAt(records, thesis, end)
  {
    forall k
      ensures IsLast(records + [r], k, Creates(thesis))
              <==> if Creates(thesis)(r) then k == |records| else IsLast(records, k, Creates(thesis))
    {
      IsLastOne(records, r, k, Creates(thesis));
    }
    assert (records + [r])[|records|] == r;
    if EndsAt(records, thesis, end) && !Creates(thesis)(r) {
      var k :| IsLast(records, k, Creates(thesis)) && EndOf(records[k]) == end;
      assert IsLast(records + [r], k, Creates(thesis)) && (records + [r])[k] == records[k];
    }
    if Creates(thesis)(r) { assert IsLast(records + [r], |records|, Creates(thesis)); }
  }

  lemma {:induction false} OriginMeans(records: seq<Record>, decision: string, thesis: string)
    ensures decision in Origin(records) && Origin(records)[decision] == thesis <==> Governed(records, decision, thesis)
  {
    if records != [] {
      var rest, r := records[..|records| - 1], records[|records| - 1];
      assert records == rest + [r];
      OriginMeans(rest, decision, thesis);
      hide Governed;
      if decision != "" && thesis != "" {
        GovernedOne(rest, r, decision, thesis);
      } else {
        OriginNames(records);
        NothingGoverned(records, decision, thesis);
      }
    }
  }

  lemma NothingGoverned(records: seq<Record>, decision: string, thesis: string)
    requires decision == "" || thesis == ""
    ensures !Governed(records, decision, thesis)
  {
  }

  lemma {:induction false} OriginNames(records: seq<Record>)
    ensures "" !in Origin(records) && forall d :: d in Origin(records) ==> Origin(records)[d] != ""
    ensures "" !in Ends(records)
  {
    if records != [] { OriginNames(records[..|records| - 1]); }
  }

  lemma {:induction false} EndsMean(records: seq<Record>, thesis: string, end: int)
    ensures thesis in Ends(records) && Ends(records)[thesis] == end <==> EndsAt(records, thesis, end)
  {
    if records != [] {
      var rest, r := records[..|records| - 1], records[|records| - 1];
      assert records == rest + [r];
      EndsMean(rest, thesis, end);
      OriginNames(records);
      if thesis != "" { EndsAtOne(rest, r, thesis, end); }
      hide IsLast, EndOf;
    }
  }

  lemma InvalidatedMeans(records: seq<Record>, thesis: string)
    requires thesis != ""
    ensures thesis in Invalidated(records) <==> EverEnded(records, thesis)
  {
    if EverEnded(records, thesis) { assert ThesisEnded(thesis) in records; }
  }

  /** A thesis is alive for startup exactly when the stored events say so. */
  lemma LiveIffAlive(records: seq<Record>, decision: string, now: int)
    ensures ThesisLive(Collect(records), decision, now) <==> Alive(records, decision, now)
  {
    hide Governed, EndsAt, Origin, Ends, Invalidated, EverEnded;
    if ThesisLive(Collect(records), decision, now) {
      var thesis := Origin(records)[decision];
      OriginMeans(records, decision, thesis);
      EndsMean(records, thesis, Ends(records)[thesis]);
      OriginNames(records);
      InvalidatedMeans(records, thesis);
    }
    if thesis, end :| Governed(records, decision, thesis) && EndsAt(records, thesis, end) && !EverEnded(records, thesis)
                      && now < end {
      OriginMeans(records, decision, thesis);
      EndsMean(records, thesis, end);
      OriginNames(records);
      InvalidatedMeans(records, thesis);
    }
  }

  /** A thesis lives for the hours it names, to the second, and for eight where it names none. */
  lemma LivesItsHours(decision: string, thesis: string, hours: Option<int>, time: int, now: int)
    requires decision != "" && thesis != ""
    ensures var length := match hours case Some(h) => 3600 * h case None => 28800;
      ThesisLive(Collect([ThesisCreated(thesis, hours, time), DecisionSeen(decision, thesis)]), decision, now)
      <==> now < time + length
  {
    var records := [ThesisCreated(thesis, hours, time), DecisionSeen(decision, thesis)];
    assert records[..1] == [ThesisCreated(thesis, hours, time)] && records[..1][..0] == [];
    assert Origin(records[..1]) == map[] && Ends(records[..1]) == map[thesis := EndOf(records[0])];
  }

  /** Invalidation is for good: whatever is stored afterwards, a decision governed by the thesis is dead at any time. */
  lemma EndedStaysDead(records: seq<Record>, more: seq<Record>, decision: string, thesis: string, now: int)
    requires EverEnded(records, thesis) && Governed(records + more, decision, thesis)
    ensures !Alive(records + more, decision, now)
  {
    assert EverEnded(records + more, thesis);
    hide Governed, EndsAt;
    forall other | Governed(records + more, decision, other)
      ensures other == thesis
    {
      OriginMeans(records + more, decision, thesis);
      OriginMeans(records + more, decision, other);
    }
  }
}
