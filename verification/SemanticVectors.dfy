/**
 Which vectors are stored: over any run, exactly those that the last embedding
 of a record produced for a model, or that were there from the beginning, until
 an erasure takes them.  What is ready is therefore complete in its vectors too.
 */
module SemanticVectors {
  import opened SemanticTables
  import opened SemanticRuns
  import opened SemanticReady

  /** What the run says about each model and record since its last erasure: the start offsets that were embedded. */
  type Embedded = map<(ModelKey, RecordId), set<nat>>

  function StartsOf(t: Tables, m: ModelKey, r: RecordId): set<nat> {
    set c | c in t.chunks && c.model == m && c.record == r :: c.start
  }

  function Without(h: Embedded, gone: set<RecordId>): Embedded {
    map k | k in h && k.1 !in gone :: h[k]
  }

  function RecordsOf(rows: seq<Row>): set<RecordId> {
    set row | row in rows :: row.record
  }

  /** An embedding counts from when it is stored; retirement, and closing a record that is gone, erase. */
  ghost function Noted(s: System, a: Action, h: Embedded): Embedded
    requires Enabled(s, a)
  {
    match a
    case Embed(starts) => h[(s.phase.key, s.phase.rows[0].record) := starts]
    case TakeRetirements(_, _, rows) => Without(h, RecordsOf(rows))
    case EraseGhost => Without(h, {s.phase.rows[0].record})
    case Acknowledge =>
      if Live(s.tables, s.phase.rows[0].record) then h else Without(h, {s.phase.rows[0].record})
    case _ => h
  }

  ghost function NotedOver(s: System, actions: seq<Action>, h: Embedded): Embedded
    requires IsRun(s, actions)
    decreases |actions|
  {
    if actions == [] then h else NotedOver(Step(s, actions[0]), actions[1..], Noted(s, actions[0], h))
  }

  /** What is stored at the beginning counts as embedded. */
  function Legacy(t: Tables): Embedded {
    map k | k in t.done + (set c | c in t.chunks :: (c.model, c.record)) :: StartsOf(t, k.0, k.1)
  }

  /** Stored is exactly what was embedded; what is complete was embedded, and what is being embedded has nothing stored. */
  ghost predicate VectorsAgree(s: System, h: Embedded) {
    var t, p := s.tables, s.phase;
    && (forall m: ModelKey, r: RecordId, x: nat :: Chunk(m, r, x) in t.chunks <==> (m, r) in h && x in h[(m, r)])
    && (forall k :: k in t.done ==> k in h)
    && ((p.Publishing? || p.Acknowledging?) && Busy(p) ==> (p.key, p.rows[0].record) in h)
    && (p.Embedding? && Busy(p) ==>
          forall c :: c in t.chunks ==> !(c.model == p.key && c.record == p.rows[0].record))
  }

  lemma RetirementsAgree(s: System, a: Action, h: Embedded)
    requires VectorsAgree(s, h) && Enabled(s, a) && a.TakeRetirements?
    ensures VectorsAgree(Step(s, a), Noted(s, a, h))
  {
    RetirementsTakenEffect(s.tables, a.rows);
    forall r: RecordId ensures Listed(a.rows, r) <==> r in RecordsOf(a.rows) {
      if r in RecordsOf(a.rows) {
        var row :| row in a.rows && row.record == r;
      }
    }
  }

  lemma EmbeddingAgrees(s: System, a: Action, h: Embedded)
    requires VectorsAgree(s, h) && Enabled(s, a) && a.Embed?
    ensures VectorsAgree(Step(s, a), Noted(s, a, h))
  {
    var k := (s.phase.key, s.phase.rows[0].record);
    forall m: ModelKey, r: RecordId, x: nat
      ensures Chunk(m, r, x) in Step(s, a).tables.chunks <==> (m, r) in Noted(s, a, h) && x in Noted(s, a, h)[(m, r)]
    {
      if (m, r) == k {
        assert Chunk(m, r, x) !in s.tables.chunks;
      }
    }
  }

  lemma InspectionAgrees(s: System, a: Action, h: Embedded)
    requires VectorsAgree(s, h) && Enabled(s, a) && a.Inspect?
    ensures VectorsAgree(Step(s, a), Noted(s, a, h))
  {
    var t, p := s.tables, s.phase;
    var r := p.rows[0].record;
    if c :| c in t.chunks && c.model == p.key && c.record == r {
      assert Chunk(c.model, c.record, c.start) in t.chunks;
    }
  }

  lemma ErasureAgrees(s: System, a: Action, h: Embedded)
    requires VectorsAgree(s, h) && Enabled(s, a) && (a.EraseGhost? || a.Acknowledge?)
    ensures VectorsAgree(Step(s, a), Noted(s, a, h))
  {
  }

  lemma OtherStepAgrees(s: System, a: Action, h: Embedded)
    requires VectorsAgree(s, h) && Enabled(s, a)
    requires !a.TakeRetirements? && !a.Embed? && !a.Inspect? && !a.EraseGhost? && !a.Acknowledge?
    ensures VectorsAgree(Step(s, a), Noted(s, a, h))
  {
    if a.Distribute? {
      DistributedEffect(s.tables, a.models, a.rows);
    }
  }

  lemma {:induction false} AgreementOverRun(s: System, actions: seq<Action>, h: Embedded)
    requires VectorsAgree(s, h) && IsRun(s, actions)
    ensures VectorsAgree(After(s, actions), NotedOver(s, actions, h))
    decreases |actions|
  {
    if actions != [] {
      var a := actions[0];
      if a.TakeRetirements? {
        RetirementsAgree(s, a, h);
      } else if a.Embed? {
        EmbeddingAgrees(s, a, h);
      } else if a.Inspect? {
        InspectionAgrees(s, a, h);
      } else if a.EraseGhost? || a.Acknowledge? {
        ErasureAgrees(s, a, h);
      } else {
        OtherStepAgrees(s, a, h);
      }
      AgreementOverRun(Step(s, a), actions[1..], Noted(s, a, h));
    }
  }

  lemma LegacyAgrees(s: System)
    requires s.phase.Stopped?
    ensures VectorsAgree(s, Legacy(s.tables))
  {
    var t := s.tables;
    forall m: ModelKey, r: RecordId, x: nat
      ensures Chunk(m, r, x) in t.chunks <==> (m, r) in Legacy(t) && x in Legacy(t)[(m, r)]
    {
      if Chunk(m, r, x) in t.chunks {
        assert (m, r) in (set c | c in t.chunks :: (c.model, c.record));
      }
    }
  }

  /**
   Over any run, failures, crashes and concurrent writers included: the vectors
   stored of a record for a model are those its last embedding produced since
   the last erasure, all of them and no other; what is complete was embedded.
   */
  lemma VectorsAreAsEmbedded(s: System, actions: seq<Action>, m: ModelKey, r: RecordId)
    requires Initial(s) && IsRun(s, actions)
    ensures
      var t, h := After(s, actions).tables, NotedOver(s, actions, Legacy(s.tables));
      && StartsOf(t, m, r) == (if (m, r) in h then h[(m, r)] else {})
      && ((m, r) in t.done ==> (m, r) in h)
  {
    LegacyAgrees(s);
    AgreementOverRun(s, actions, Legacy(s.tables));
    var t, h := After(s, actions).tables, NotedOver(s, actions, Legacy(s.tables));
    forall x: nat ensures x in StartsOf(t, m, r) <==> (m, r) in h && x in h[(m, r)] {
      if x in StartsOf(t, m, r) {
        var c :| c in t.chunks && c.model == m && c.record == r && c.start == x;
        assert c == Chunk(m, r, x);
      }
      if Chunk(m, r, x) in t.chunks {
        assert x in StartsOf(t, m, r);
      }
    }
  }

  /**
   Ready is honest about vectors too: the active model embedded every live
   visible record and still stores every start of that embedding, and nothing
   else is stored by any model that is not of such a record.
   */
  lemma ReadyIsComplete(s: System, actions: seq<Action>, r: RecordId)
    requires Initial(s) && IsRun(s, actions)
    requires KeepsCompletions(s, actions) && KeepsLeftoversThroughout(s, actions)
    ensures
      var u, h := After(s, actions), NotedOver(s, actions, Legacy(s.tables));
      !u.phase.Stopped? && Ready(u.tables, u.phase.key) ==>
        if Live(u.tables, r) then (u.phase.key, r) in h && StartsOf(u.tables, u.phase.key, r) == h[(u.phase.key, r)]
        else forall m :: StartsOf(u.tables, m, r) == {}
  {
    var u := After(s, actions);
    if !u.phase.Stopped? && Ready(u.tables, u.phase.key) {
      ReadyIsHonest(s, actions);
      VectorsAreAsEmbedded(s, actions, u.phase.key, r);
    }
  }
}
