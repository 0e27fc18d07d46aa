/** internal/app/run.go: one scan from budget to saved baseline, and what a history of scans to one
    endpoint amounts to for a receiver that stores snapshots and rebuilds deltas. */
module Pipeline {
  import opened Protocol
  import opened Schema
  import opened Baseline
  import opened PayloadBudget
  import opened Split
  import opened Ingest
  import SD = SpoolDir

  const FINGERPRINT_ALGO := "sha256-canonical-json/v1"

  /** A delta is sent only against a baseline that holds something. */
  predicate UsesDelta(delta: bool, saved: Option<State>) {
    delta && saved.Some? && |AsMaps(saved)| > 0
  }

  /** A configured delta is sent exactly when a baseline that names some entity was saved; its base is the
      scan of that baseline, if that has an id. */
  lemma DeltaSentIff(env: Envelope, scanID: string, entities: Inventory, delta: bool, saved: Option<State>)
    requires IsEnvelope(env, scanID, entities, delta, saved)
    ensures if delta && saved.Some? && saved.value.entities != map[] then
              && env.baseScanID == (if saved.value.scanID == "" then None else Some(saved.value.scanID))
              && forall n | n in env.entities :: n in entities && env.entities[n].Diff?
            else
              && env.baseScanID == None
              && forall n | n in env.entities :: n in entities && env.entities[n] == Records(entities[n])
  {
    if saved.Some? {
      assert |saved.value.entities| == 0 <==> saved.value.entities == map[];
    }
  }

  /** The envelope of a scan: a snapshot of everything, or per entity a delta against the baseline. */
  ghost predicate IsEnvelope(env: Envelope, scanID: string, entities: Inventory, delta: bool, saved: Option<State>) {
    && env.scanID == scanID && env.entities.Keys == entities.Keys
    && if UsesDelta(delta, saved) then
         && env.baseScanID == (if saved.value.scanID == "" then None else Some(saved.value.scanID))
         && (forall n | n in entities ::
               env.entities[n].Diff? && IsDelta(env.entities[n].delta, entities[n], Old(AsMaps(saved), n)))
       else
         && env.baseScanID == None
         && (forall n | n in entities :: env.entities[n] == Records(entities[n]))
  }

  class Agent {
    const outbox: Outbox
    var saved: Option<State>    // the state file

    constructor (outbox: Outbox)
      ensures this.outbox == outbox && saved == None
    {
      this.outbox, saved := outbox, None;
    }

    method BuildEnvelope(entities: map<string, EntityCollection>, scanID: string, delta: bool) returns (env: Envelope)
      ensures IsEnvelope(env, scanID, RecordsOf(entities), delta, saved)
    {
      if UsesDelta(delta, saved) {
        var d := BuildDelta(entities, AsMaps(saved));
        var base := if saved.value.scanID == "" then None else Some(saved.value.scanID);
        env := Envelope(scanID, base, map n | n in d :: Diff(d[n]));
      } else {
        env := Envelope(scanID, None, map n | n in entities :: Records(entities[n].records));
      }
    }

    /** A dry run sends nothing and counts as delivered; an error from Send does not. */
    method Deliver(env: Envelope, dryRun: bool, wire: Size, chunkBytes: int, diskTakes: nat -> bool)
      returns (sent: bool, delivered: bool)
      requires forall i: nat :: FileName(env.scanID, i) !in outbox.spool
      modifies outbox`spool, outbox.receiver
      ensures dryRun ==> delivered && !sent && outbox.View() == old(outbox.View())
      ensures !dryRun ==>
        Delivers(old(outbox.View()), BodiesOf(env, wire, chunkBytes), env.scanID, outbox.View(),
                 outbox.hasSpoolDir, sent, delivered)
      ensures !dryRun && (forall i: nat :: diskTakes(i)) ==> sent
      ensures sent ==>
        (delivered <==> EachTaken(old(outbox.receiver.answers), outbox.Attempts(),
                                  old(outbox.Files()) + |BodiesOf(env, wire, chunkBytes)|))
    {
      if dryRun {
        return false, true;
      }
      var r := outbox.Send(env, wire, chunkBytes, diskTakes);
      if r.None? {
        return false, false;
      }
      return true, r.value.delivered;
    }

    method SaveBaseline(save: bool, scanID: string, entities: map<string, EntityCollection>)
      modifies this`saved
      ensures RecordsOf(entities) == old(RecordsOf(entities))
      ensures saved ==
              if save then Some(State(scanID, "sha256-canonical-json/v1", KeyMaps(RecordsOf(entities)))) else old(saved)
    {
      if save {
        var s := Snapshot(scanID, FINGERPRINT_ALGO, entities);
        saved := Some(s);
      }
    }

    /** `app.Run` from the envelope on. `sent` is false for a dry run and when Send returned an error. */
    method SendAndSave(entities: map<string, EntityCollection>, env: Envelope, dryRun: bool,
                       summarized: bool, wire: Size, chunkBytes: int, diskTakes: nat -> bool)
      returns (sent: bool, delivered: bool)
      requires forall i: nat :: FileName(env.scanID, i) !in outbox.spool
      modifies this`saved, outbox`spool, outbox.receiver
      ensures RecordsOf(entities) == old(RecordsOf(entities)) && Views(entities) == old(Views(entities))
      ensures saved == if delivered && !summarized
                       then Some(State(env.scanID, FINGERPRINT_ALGO, KeyMaps(RecordsOf(entities)))) else old(saved)
      ensures dryRun ==> delivered && !sent && outbox.View() == old(outbox.View())
      ensures !dryRun ==>
        Delivers(old(outbox.View()), BodiesOf(env, wire, chunkBytes), env.scanID, outbox.View(),
                 outbox.hasSpoolDir, sent, delivered)
      ensures !dryRun && (forall i: nat :: diskTakes(i)) ==> sent
      ensures sent ==>
        (delivered <==> EachTaken(old(outbox.receiver.answers), outbox.Attempts(),
                                  old(outbox.Files()) + |BodiesOf(env, wire, chunkBytes)|))
    {
      sent, delivered := Deliver(env, dryRun, wire, chunkBytes, diskTakes);
      SaveBaseline(delivered && !summarized, env.scanID, entities);
    }

    /** `app.Run` after collection: the trim comes first, and a trimmed scan does not move the baseline. */
    method Scan(entities: map<string, EntityCollection>, scanID: string, delta: bool, dryRun: bool,
                maxPayload: int, sizer: Sizer, wire: Size, chunkBytes: int, diskTakes: nat -> bool)
      returns (env: Envelope, sent: bool, delivered: bool, summarized: bool, truncated: seq<Note>)
      requires Unaliased(entities)
      requires forall n | n in entities :: Untouched(PayloadBudget.View(entities[n]))
      requires forall i: nat :: FileName(scanID, i) !in outbox.spool
      modifies entities.Values, this`saved, outbox`spool, outbox.receiver
      ensures IsEnvelope(env, scanID, RecordsOf(entities), delta, old(saved))
      ensures saved == if delivered && !summarized
                       then Some(State(scanID, FINGERPRINT_ALGO, KeyMaps(RecordsOf(entities)))) else old(saved)
      ensures dryRun ==> delivered && !sent && outbox.View() == old(outbox.View())
      ensures !dryRun ==>
        Delivers(old(outbox.View()), BodiesOf(env, wire, chunkBytes), scanID, outbox.View(),
                 outbox.hasSpoolDir, sent, delivered)
      ensures !dryRun && (forall i: nat :: diskTakes(i)) ==> sent
      ensures sent ==>
        (delivered <==> EachTaken(old(outbox.receiver.answers), outbox.Attempts(),
                                  old(outbox.Files()) + |BodiesOf(env, wire, chunkBytes)|))
      ensures AllTrimmed(old(Views(entities)), Views(entities), truncated) && (summarized <==> truncated != [])
      ensures maxPayload > 0 ==> Ended(Views(entities), maxPayload, sizer, |truncated|)
    {
      summarized, truncated := EnforceBudget(entities, maxPayload, sizer);
      env := BuildEnvelope(entities, scanID, delta);
      sent, delivered := SendAndSave(entities, env, dryRun, summarized, wire, chunkBytes, diskTakes);
    }
  }

  /** What a real delivery amounts to. */
  ghost predicate Delivers(d: Delivery, bodies: seq<Body>, scanID: string, d': Delivery,
                           hasSpoolDir: bool, sent: bool, delivered: bool) {
    && Bounded(d, bodies, scanID, d')
    && OldKept(d, d')
    && (delivered ==> sent && forall b | b in bodies :: b in d'.got)
    && (sent && hasSpoolDir ==> SendStep(d, bodies, scanID, d') && (delivered <==> d'.spool == map[]))
  }

  // ----- the receiver -----

  /** Per scan, per entity: key -> fingerprint. */
  type Store = map<string, map<string, FpMap>>

  function Lookup(store: Store, scanID: string): map<string, FpMap> {
    if scanID in store then store[scanID] else map[]
  }

  function BaseOf(store: Store, base: Option<string>): map<string, FpMap> {
    if base.Some? then Lookup(store, base.value) else map[]
  }

  /** What a payload means to a receiver that knows the base scan. */
  function Meaning(p: Content, base: FpMap): FpMap {
    match p
    case Records(records) => KeyMap(records)
    case Diff(d) => Rebuild(base, d)
  }

  /** A receiver files each entity under its scan, keeping exactly the entities the scan names. */
  function Absorb(store: Store, b: Body): Store {
    var known := BaseOf(store, b.baseScanID);
    store[b.scanID := Lookup(store, b.scanID) + map n | n in b.entities :: Meaning(b.entities[n], Old(known, n))]
  }

  function Filed(got: seq<Body>): Store {
    if got == [] then map[] else Absorb(Filed(got[..|got| - 1]), got[|got| - 1])
  }

  // ----- histories -----

  datatype World = World(saved: Option<State>, delivery: Delivery)

  /** One real scan. `bodies` are the requests it makes; `sent` is false when Send returned an error. */
  datatype ScanEvent = ScanEvent(
    scanID: string, entities: Inventory, delta: bool, env: Envelope,
    wire: Size, chunkBytes: int, sent: bool, delivered: bool, summarized: bool)

  ghost function BodiesOfEvent(e: ScanEvent): seq<Body> {
    BodiesOf(e.env, e.wire, e.chunkBytes)
  }

  /** What Agent.Scan promises of a scan that is no dry run, with the spool directory set. */
  ghost predicate ScanStep(w: World, e: ScanEvent, w': World) {
    && IsEnvelope(e.env, e.scanID, e.entities, e.delta, w.saved)
    && Delivers(w.delivery, BodiesOfEvent(e), e.scanID, w'.delivery, true, e.sent, e.delivered)
    && w'.saved == if e.delivered && !e.summarized
                   then Some(State(e.scanID, FINGERPRINT_ALGO, KeyMaps(e.entities))) else w.saved
  }

  /** A call of Agent.Scan that is no dry run is such a step, with the records that the trim left. */
  method RealScan(agent: Agent, entities: map<string, EntityCollection>, scanID: string, delta: bool,
                  maxPayload: int, sizer: Sizer, wire: Size, chunkBytes: int, diskTakes: nat -> bool)
    returns (e: ScanEvent)
    requires Unaliased(entities)
    requires forall n | n in entities :: Untouched(PayloadBudget.View(entities[n]))
    requires forall i: nat :: FileName(scanID, i) !in agent.outbox.spool
    requires agent.outbox.hasSpoolDir
    modifies entities.Values, agent`saved, agent.outbox`spool, agent.outbox.receiver
    ensures e.scanID == scanID && e.entities == RecordsOf(entities)
    ensures ScanStep(World(old(agent.saved), old(agent.outbox.View())), e, World(agent.saved, agent.outbox.View()))
  {
    var env, sent, delivered, summarized, _ :=
      agent.Scan(entities, scanID, delta, false, maxPayload, sizer, wire, chunkBytes, diskTakes);
    var records := map n | n in entities :: entities[n].records;
    e := ScanEvent(scanID, records, delta, env, wire, chunkBytes, sent, delivered, summarized);
  }

  const FIRST := World(None, Delivery([], map[]))

  ghost predicate IsHistory(ws: seq<World>, es: seq<ScanEvent>) {
    && |ws| == |es| + 1 && ws[0] == FIRST
    && (forall i | 0 <= i < |es| :: es[i].scanID != "" && ScanStep(ws[i], es[i], ws[i + 1]))
    && (forall i, j | 0 <= i < j < |es| :: es[i].scanID != es[j].scanID)
  }

  lemma HistoryFront(ws: seq<World>, es: seq<ScanEvent>)
    requires IsHistory(ws, es) && es != []
    ensures IsHistory(ws[..|es|], es[..|es| - 1])
    ensures ScanStep(ws[|es| - 1], es[|es| - 1], ws[|es|]) && es[|es| - 1].scanID != ""
  {
    var n := |es| - 1;
    forall i | 0 <= i < n ensures ScanStep(ws[..n + 1][i], es[..n][i], ws[..n + 1][i + 1]) {
      assert ScanStep(ws[i], es[i], ws[i + 1]);
    }
  }

  /** The true maps of every scan so far. */
  function Truth(es: seq<ScanEvent>): Store {
    if es == [] then map[]
    else Truth(es[..|es| - 1])[es[|es| - 1].scanID := KeyMaps(es[|es| - 1].entities)]
  }

  ghost predicate Agrees(store: Store, truth: Store) {
    forall s | s in store :: s in truth && forall n | n in store[s] :: n in truth[s] && store[s][n] == truth[s][n]
  }

  /** The receiver has all of a scan. */
  ghost predicate Whole(store: Store, truth: Store, s: string) {
    s in truth && Lookup(store, s) == truth[s]
  }

  /** A request the receiver can make sense of as soon as it arrives, and to the right effect. */
  ghost predicate GoodBody(b: Body, truth: Store) {
    && b.scanID in truth
    && (b.baseScanID.Some? ==> b.baseScanID.value in truth)
    && (forall n | n in b.entities ::
          n in truth[b.scanID] && Meaning(b.entities[n], Old(BaseOf(truth, b.baseScanID), n)) == truth[b.scanID][n])
  }

  ghost predicate Usable(b: Body, store: Store, truth: Store) {
    GoodBody(b, truth) && (b.baseScanID.Some? ==> Whole(store, truth, b.baseScanID.value))
  }

  ghost predicate Inv(w: World, truth: Store) {
    var store := Filed(w.delivery.got);
    && Agrees(store, truth)
    && (forall f | f in w.delivery.spool :: Usable(w.delivery.spool[f], store, truth))
    && (w.saved.Some? ==>
          && w.saved.value.scanID != ""
          && Whole(store, truth, w.saved.value.scanID)
          && w.saved.value.entities == truth[w.saved.value.scanID])
  }

  /** A usable body only adds what is true, and spoils nothing that was whole. */
  lemma AbsorbKeeps(store: Store, truth: Store, b: Body)
    requires Agrees(store, truth) && Usable(b, store, truth)
    ensures Agrees(Absorb(store, b), truth)
    ensures forall s | Whole(store, truth, s) :: Whole(Absorb(store, b), truth, s)
    ensures forall n | n in b.entities :: n in Lookup(Absorb(store, b), b.scanID)
    ensures forall s, n | n in Lookup(store, s) :: n in Lookup(Absorb(store, b), s)
  {
    var store' := Absorb(store, b);
    assert BaseOf(store, b.baseScanID) == BaseOf(truth, b.baseScanID);
    forall s | s in store'
      ensures s in truth && forall n | n in store'[s] :: n in truth[s] && store'[s][n] == truth[s][n]
    {
    }
    forall s | Whole(store, truth, s) ensures Whole(store', truth, s) {
      assert Lookup(store', s).Keys >= truth[s].Keys;
      assert s in store' ==> forall n | n in store'[s] :: n in truth[s] && store'[s][n] == truth[s][n];
    }
  }

  /** Everything that arrives during a scan is usable, whatever the order and the repetitions. */
  lemma {:induction false} ArrivalsKeep(got: seq<Body>, got': seq<Body>, bodies: set<Body>, truth: Store)
    requires Received(got, got', bodies)
    requires Agrees(Filed(got), truth) && forall b | b in bodies :: Usable(b, Filed(got), truth)
    ensures Agrees(Filed(got'), truth)
    ensures forall s | Whole(Filed(got), truth, s) :: Whole(Filed(got'), truth, s)
    decreases |got'|
  {
    if |got'| == |got| {
      assert got' == got;
    } else {
      var k := |got'| - 1;
      ArrivalsKeep(got, got'[..k], bodies, truth);
      assert Usable(got'[k], Filed(got), truth);
      AbsorbKeeps(Filed(got'[..k]), truth, got'[k]);
    }
  }

  /** What has arrived is on file. */
  lemma {:induction false} ArrivedIsFiled(got: seq<Body>, b: Body, n: string)
    requires b in got && n in b.entities
    ensures n in Lookup(Filed(got), b.scanID)
  {
    var k := |got| - 1;
    if b != got[k] {
      assert got == got[..k] + [got[k]];
      ArrivedIsFiled(got[..k], b, n);
    }
  }

  lemma {:induction false} MergeHas<T>(chunks: seq<map<string, T>>, n: string) returns (i: nat)
    requires n in Merge(chunks)
    ensures i < |chunks| && n in chunks[i]
  {
    if n in chunks[0] {
      i := 0;
    } else {
      var j := MergeHas(chunks[1..], n);
      i := j + 1;
    }
  }

  /** The bodies of an envelope carry its entities, all of them, unaltered. */
  lemma BodiesCarry(env: Envelope, wire: Size, chunkBytes: int)
    ensures forall b | b in BodiesOf(env, wire, chunkBytes) ::
      && b.scanID == env.scanID && b.baseScanID == env.baseScanID
      && forall n | n in b.entities :: n in env.entities && b.entities[n] == env.entities[n]
    ensures forall n | n in env.entities :: exists b :: b in BodiesOf(env, wire, chunkBytes) && n in b.entities
  {
    var names := SD.Listing(env.entities.Keys);
    var groups := GroupsOf(wire, chunkBytes, names);
    var bodies := BodiesOf(env, wire, chunkBytes);
    ChunksRestore(env.entities, names, wire, chunkBytes);
    forall n | n in env.entities ensures exists b :: b in bodies && n in b.entities {
      var i := MergeHas(RestrictAll(env.entities, groups), n);
      assert bodies[i] in bodies && n in bodies[i].entities;
    }
  }

  /** Whatever the envelope says of an entity means its current key map. */
  lemma EnvelopeMeans(env: Envelope, scanID: string, entities: Inventory, delta: bool, saved: Option<State>, n: string)
    requires IsEnvelope(env, scanID, entities, delta, saved) && n in entities
    ensures var base := if UsesDelta(delta, saved) then AsMaps(saved) else map[];
      Meaning(env.entities[n], Old(base, n)) == KeyMap(entities[n])
  {
    if UsesDelta(delta, saved) {
      DeltaReplays(env.entities[n].delta, entities[n], Old(AsMaps(saved), n));
    }
  }

  /** The base of an envelope is known, whole, and what the envelope was built against. */
  lemma EnvelopeBase(w: World, e: ScanEvent, truth: Store)
    requires Inv(w, truth) && e.scanID !in truth
    requires IsEnvelope(e.env, e.scanID, e.entities, e.delta, w.saved)
    ensures var truth' := truth[e.scanID := KeyMaps(e.entities)];
      && (e.env.baseScanID.Some? ==> Whole(Filed(w.delivery.got), truth', e.env.baseScanID.value))
      && BaseOf(truth', e.env.baseScanID) == (if UsesDelta(e.delta, w.saved) then AsMaps(w.saved) else map[])
  {
  }

  /** In the world before it, a scan's bodies say what is true of it. */
  lemma NewBodiesUsable(w: World, e: ScanEvent, truth: Store, b: Body)
    requires Inv(w, truth) && e.scanID !in truth
    requires IsEnvelope(e.env, e.scanID, e.entities, e.delta, w.saved)
    requires b.scanID == e.scanID && b.baseScanID == e.env.baseScanID
    requires forall n | n in b.entities :: n in e.env.entities && b.entities[n] == e.env.entities[n]
    ensures Usable(b, Filed(w.delivery.got), truth[e.scanID := KeyMaps(e.entities)])
  {
    var truth' := truth[e.scanID := KeyMaps(e.entities)];
    EnvelopeBase(w, e, truth);
    forall n | n in b.entities
      ensures n in truth'[b.scanID]
      ensures Meaning(b.entities[n], Old(BaseOf(truth', b.baseScanID), n)) == truth'[b.scanID][n]
    {
      EnvelopeMeans(e.env, e.scanID, e.entities, e.delta, w.saved, n);
    }
  }

  /** A further scan changes nothing about the earlier ones. */
  lemma OldStaysUsable(store: Store, truth: Store, scanID: string, maps: map<string, FpMap>)
    requires scanID !in truth
    ensures Agrees(store, truth) ==> Agrees(store, truth[scanID := maps])
    ensures forall s | Whole(store, truth, s) :: Whole(store, truth[scanID := maps], s)
    ensures forall b | Usable(b, store, truth) :: Usable(b, store, truth[scanID := maps])
  {
    forall b | Usable(b, store, truth) ensures Usable(b, store, truth[scanID := maps]) {
      assert BaseOf(truth[scanID := maps], b.baseScanID) == BaseOf(truth, b.baseScanID);
    }
  }

  function Sources(w: World, bodies: seq<Body>): set<Body> {
    w.delivery.spool.Values + Ingest.Set(bodies)
  }

  lemma SourcesUsable(w: World, e: ScanEvent, truth: Store)
    requires Inv(w, truth) && e.scanID !in truth
    requires IsEnvelope(e.env, e.scanID, e.entities, e.delta, w.saved)
    ensures forall b | b in Sources(w, BodiesOfEvent(e)) ::
      Usable(b, Filed(w.delivery.got), truth[e.scanID := KeyMaps(e.entities)])
  {
    OldStaysUsable(Filed(w.delivery.got), truth, e.scanID, KeyMaps(e.entities));
    BodiesCarry(e.env, e.wire, e.chunkBytes);
    forall b | b in BodiesOfEvent(e)
      ensures Usable(b, Filed(w.delivery.got), truth[e.scanID := KeyMaps(e.entities)])
    {
      NewBodiesUsable(w, e, truth, b);
    }
  }

  /** What usable bodies turn a store into. */
  lemma SpoolStaysUsable(got: seq<Body>, got': seq<Body>, bodies: set<Body>, truth: Store)
    requires Received(got, got', bodies)
    requires Agrees(Filed(got), truth) && forall b | b in bodies :: Usable(b, Filed(got), truth)
    ensures Agrees(Filed(got'), truth)
    ensures forall s | Whole(Filed(got), truth, s) :: Whole(Filed(got'), truth, s)
    ensures forall b | b in bodies :: Usable(b, Filed(got'), truth)
  {
    ArrivalsKeep(got, got', bodies, truth);
    forall b | b in bodies ensures Usable(b, Filed(got'), truth) {
      assert Usable(b, Filed(got), truth);
    }
  }

  lemma SpoolFromSources(w: World, bodies: seq<Body>, scanID: string, d: Delivery, f: string)
    requires Bounded(w.delivery, bodies, scanID, d) && f in d.spool
    ensures d.spool[f] in Sources(w, bodies)
  {
    assert FromSpoolOrBodies(w.delivery, bodies, scanID, f, d.spool[f]);
  }

  lemma StepKeeps(w: World, e: ScanEvent, w': World, truth: Store)
    requires Inv(w, truth) && e.scanID !in truth && e.scanID != "" && ScanStep(w, e, w')
    ensures Inv(w', truth[e.scanID := KeyMaps(e.entities)])
  {
    var truth' := truth[e.scanID := KeyMaps(e.entities)];
    var bodies := BodiesOfEvent(e);
    OldStaysUsable(Filed(w.delivery.got), truth, e.scanID, KeyMaps(e.entities));
    SourcesUsable(w, e, truth);
    SpoolStaysUsable(w.delivery.got, w'.delivery.got, Sources(w, bodies), truth');
    forall f | f in w'.delivery.spool ensures Usable(w'.delivery.spool[f], Filed(w'.delivery.got), truth') {
      SpoolFromSources(w, bodies, e.scanID, w'.delivery, f);
    }
    if e.delivered && !e.summarized {
      DeliveredIsWhole(e, w'.delivery, truth');
    }
  }

  lemma WholeByKeys(store: Store, truth: Store, s: string)
    requires Agrees(store, truth) && s in truth
    requires forall n | n in truth[s] :: n in Lookup(store, s)
    ensures Whole(store, truth, s)
  {
    assert forall n | n in Lookup(store, s) :: n in truth[s] && Lookup(store, s)[n] == truth[s][n];
  }

  lemma DeliveredIsWhole(e: ScanEvent, d: Delivery, truth: Store)
    requires e.env.scanID == e.scanID && e.env.entities.Keys == e.entities.Keys
    requires forall b | b in BodiesOfEvent(e) :: b in d.got
    requires Agrees(Filed(d.got), truth) && e.scanID in truth && truth[e.scanID].Keys == e.entities.Keys
    ensures Whole(Filed(d.got), truth, e.scanID)
  {
    BodiesCarry(e.env, e.wire, e.chunkBytes);
    forall n | n in truth[e.scanID] ensures n in Lookup(Filed(d.got), e.scanID) {
      var b :| b in BodiesOfEvent(e) && n in b.entities;
      ArrivedIsFiled(d.got, b, n);
    }
    WholeByKeys(Filed(d.got), truth, e.scanID);
  }

  lemma {:induction false} TruthKeys(es: seq<ScanEvent>)
    ensures forall s :: s in Truth(es) <==> exists i :: 0 <= i < |es| && es[i].scanID == s
  {
    if es != [] {
      TruthKeys(es[..|es| - 1]);
    }
  }

  lemma {:induction false} HistoryKeeps(ws: seq<World>, es: seq<ScanEvent>)
    requires IsHistory(ws, es)
    ensures Inv(ws[|es|], Truth(es))
  {
    if es != [] {
      var n := |es| - 1;
      HistoryFront(ws, es);
      HistoryKeeps(ws[..n + 1], es[..n]);
      TruthKeys(es[..n]);
      assert es[n].scanID !in Truth(es[..n]);
      StepKeeps(ws[n], es[n], ws[n + 1], Truth(es[..n]));
    }
  }

  // ----- the theorems -----

  /** After any history of real scans to one endpoint, whatever was delivered when, in which chunks,
      how often and in which order: a receiver that files snapshots and rebuilds each delta from its
      base holds, for the scan the agent has saved as its baseline, exactly the saved fingerprints. */
  lemma ReceiverMatchesBaseline(ws: seq<World>, es: seq<ScanEvent>)
    requires IsHistory(ws, es) && ws[|es|].saved.Some?
    ensures var w := ws[|es|];
      Lookup(Filed(w.delivery.got), w.saved.value.scanID) == w.saved.value.entities
  {
    HistoryKeeps(ws, es);
  }

  /** And of every scan, it holds nothing false. */
  lemma ReceiverHoldsTruth(ws: seq<World>, es: seq<ScanEvent>, k: nat, n: string)
    requires IsHistory(ws, es) && k < |es|
    requires n in Lookup(Filed(ws[|es|].delivery.got), es[k].scanID)
    ensures n in es[k].entities
    ensures Lookup(Filed(ws[|es|].delivery.got), es[k].scanID)[n] == KeyMap(es[k].entities[n])
  {
    HistoryKeeps(ws, es);
    TruthAt(es, k);
  }

  lemma {:induction false} TruthAt(es: seq<ScanEvent>, k: nat)
    requires k < |es| && forall i, j | 0 <= i < j < |es| :: es[i].scanID != es[j].scanID
    ensures es[k].scanID in Truth(es) && Truth(es)[es[k].scanID] == KeyMaps(es[k].entities)
  {
    var n := |es| - 1;
    if k < n {
      TruthAt(es[..n], k);
      assert es[..n][k] == es[k];
    }
  }

  /** A scan id that is new has no file in the spool, so Agent.Scan may be called with it. */
  lemma {:induction false} NewScanHasNoFiles(ws: seq<World>, es: seq<ScanEvent>, scanID: string, i: nat)
    requires IsHistory(ws, es) && forall j | 0 <= j < |es| :: es[j].scanID != scanID
    ensures FileName(scanID, i) !in ws[|es|].delivery.spool
  {
    if es != [] {
      var n := |es| - 1;
      var f, d := FileName(scanID, i), ws[n + 1].delivery;
      HistoryFront(ws, es);
      NewScanHasNoFiles(ws[..n + 1], es[..n], scanID, i);
      if f in d.spool {
        assert FromSpoolOrBodies(ws[n].delivery, BodiesOfEvent(es[n]), es[n].scanID, f, d.spool[f]);
        var k :| 0 <= k < |BodiesOfEvent(es[n])| && f == FileName(es[n].scanID, k);
        FileNameInjective(scanID, i, es[n].scanID, k);
      }
    }
  }

  /** With the spool directory set, every chunk of a scan whose Send did not return an error was taken by
      the receiver or is a file in the spool, whatever happened to later scans. */
  lemma {:induction false} NoChunkIsLost(ws: seq<World>, es: seq<ScanEvent>, k: nat, i: nat)
    requires IsHistory(ws, es)
    requires k < |es| && es[k].sent && i < |BodiesOfEvent(es[k])|
    ensures Kept(BodiesOfEvent(es[k])[i], FileName(es[k].scanID, i), ws[|es|].delivery)
    decreases |es|
  {
    var n := |es| - 1;
    if k < n {
      HistoryFront(ws, es);
      NoChunkIsLost(ws[..n + 1], es[..n], k, i);
      var b := BodiesOfEvent(es[k])[i];
      if b in ws[n].delivery.got { GotStays(ws[n].delivery, ws[n + 1].delivery, b); }
    }
  }

  /** `Delivered` means that this scan's chunks and those of every scan before it whose Send did not
      return an error were taken, and that nothing is left in the spool. */
  lemma DeliveredMeansAll(ws: seq<World>, es: seq<ScanEvent>, k: nat, i: nat)
    requires IsHistory(ws, es) && es != [] && es[|es| - 1].delivered
    requires k < |es| && es[k].sent && i < |BodiesOfEvent(es[k])|
    ensures ws[|es|].delivery.spool == map[]
    ensures BodiesOfEvent(es[k])[i] in ws[|es|].delivery.got
  {
    assert ScanStep(ws[|es| - 1], es[|es| - 1], ws[|es|]);
    NoChunkIsLost(ws, es, k, i);
  }
}
