/**
 * Registering the webhooks of a workflow: a row per webhook in the webhook table, and a registration
 * with the external service. The table is written by upsert on (method, path), and a failure half-way
 * is undone by clearing everything the stored workflow defines.
 */
module WebhookRegistration {
  import opened Options
  import WP = WebhookPath

  datatype ActivationMode = Init | Create | Update | Activate | ManualMode | LeadershipChange

  datatype Hook = Hook(node: string, name: string, path: string, httpMethod: string, webhookId: Option<string>)

  datatype Key = Key(httpMethod: string, path: string)

  datatype Row = Row(workflowId: string, node: string, webhookId: Option<string>, pathLength: Option<nat>)

  datatype Registration = Registration(workflowId: string, hook: Hook)

  datatype World = World(rows: map<Key, Row>, external: set<Registration>)

  function KeyOf(hook: Hook): Key {
    Key(hook.httpMethod, WP.Stripped(hook.path))
  }

  /** Only a dynamic path of a node with a non-empty webhook id records an id and a length. */
  function RowOf(id: string, hook: Hook): Row {
    if WP.IsDynamic(hook.path) && hook.webhookId.Some? && hook.webhookId.value != "" then
      Row(id, hook.node, hook.webhookId, Some(|WP.Split(WP.Stripped(hook.path))|))
    else
      Row(id, hook.node, None, None)
  }

  /** What the environment does with one webhook; `queryFailed` says the error is a failed query. */
  datatype Attempt = Succeeds | StoreFails(queryFailed: bool) | CreateFails(queryFailed: bool)

  datatype Trial = Trial(hook: Hook, attempt: Attempt)

  /**
   * How far clearing a workflow gets: the workflow cannot be loaded, deregistering the webhook at a
   * position fails, deleting the rows fails, or everything is cleared.
   */
  datatype ClearOutcome = WorkflowMissing | DeleteFails(at: nat) | RowsFail | AllCleared

  /** `defined` are the webhooks of the workflow as stored. */
  datatype Clearing = Clearing(defined: seq<Hook>, outcome: ClearOutcome)

  // ---------------------------------------------------------------- clearing

  function Deregistered(external: set<Registration>, id: string, hooks: seq<Hook>): set<Registration> {
    set r | r in external && !(r.workflowId == id && r.hook in hooks)
  }

  function WithoutRowsOf(rows: map<Key, Row>, id: string): map<Key, Row> {
    map k | k in rows && rows[k].workflowId != id :: rows[k]
  }

  function Cleared(w: World, id: string, c: Clearing): World {
    match c.outcome
    case WorkflowMissing => w
    case DeleteFails(at) => w.(external := Deregistered(w.external, id, if at <= |c.defined| then c.defined[..at] else c.defined))
    case RowsFail => w.(external := Deregistered(w.external, id, c.defined))
    case AllCleared => World(WithoutRowsOf(w.rows, id), Deregistered(w.external, id, c.defined))
  }

  // ---------------------------------------------------------------- adding

  predicate Stores(t: Trial) {
    t.attempt.Succeeds? || t.attempt.CreateFails?
  }

  /** On initialisation a failed query is expected, since rows survive a shutdown. */
  predicate Passes(mode: ActivationMode, t: Trial) {
    t.attempt.Succeeds? || (mode.Init? && t.attempt.queryFailed)
  }

  function Tried(w: World, id: string, t: Trial): World {
    World(if Stores(t) then w.rows[KeyOf(t.hook) := RowOf(id, t.hook)] else w.rows,
          if t.attempt.Succeeds? then w.external + {Registration(id, t.hook)} else w.external)
  }

  datatype Added = Added(world: World, thrown: bool)

  function AddAll(w: World, id: string, trials: seq<Trial>, mode: ActivationMode, c: Clearing): Added
    decreases |trials|
  {
    if trials == [] then Added(w, false)
    else
      var w' := Tried(w, id, trials[0]);
      if Passes(mode, trials[0]) then AddAll(w', id, trials[1..], mode, c)
      else Added(Cleared(w', id, c), true)
  }

  /** `addWebhooks`; `finishFails` says that filling the cache fails after the loop. */
  function Registering(w: World, id: string, trials: seq<Trial>, mode: ActivationMode, c: Clearing, finishFails: bool): Added {
    var r := AddAll(w, id, trials, mode, c);
    if trials != [] && !r.thrown && finishFails then Added(r.world, true) else r
  }

  // ---------------------------------------------------------------- what a call comes to

  /** The trials up to and including the first that does not pass. */
  function Reached(trials: seq<Trial>, mode: ActivationMode): seq<Trial> {
    if trials == [] then []
    else [trials[0]] + if Passes(mode, trials[0]) then Reached(trials[1..], mode) else []
  }

  predicate LoopThrows(trials: seq<Trial>, mode: ActivationMode) {
    exists t :: t in trials && !Passes(mode, t)
  }

  predicate Throws(trials: seq<Trial>, mode: ActivationMode, finishFails: bool) {
    LoopThrows(trials, mode) || (trials != [] && finishFails)
  }

  /** The webhook whose row ends up under the key: the last one that stores it. */
  function LastStored(trials: seq<Trial>, key: Key): Option<Hook> {
    if trials == [] then None
    else
      var later := LastStored(trials[1..], key);
      if later.Some? then later
      else if Stores(trials[0]) && KeyOf(trials[0].hook) == key then Some(trials[0].hook)
      else None
  }

  /** The world when the trials have been made and nothing has been cleared. */
  ghost predicate Written(w: World, id: string, trials: seq<Trial>, w': World) {
    && (forall k :: k in w'.rows <==> k in w.rows || LastStored(trials, k).Some?)
    && (forall k :: k in w'.rows ==>
          w'.rows[k] == if LastStored(trials, k).Some? then RowOf(id, LastStored(trials, k).value) else w.rows[k])
    && w'.external == w.external + set t | t in trials && t.attempt.Succeeds? :: Registration(id, t.hook)
  }

  function TriedAll(w: World, id: string, trials: seq<Trial>): World
    decreases |trials|
  {
    if trials == [] then w else TriedAll(Tried(w, id, trials[0]), id, trials[1..])
  }

  lemma {:induction false} TriedAllWrites(w: World, id: string, trials: seq<Trial>)
    ensures Written(w, id, trials, TriedAll(w, id, trials))
    decreases |trials|
  {
    if trials != [] {
      var t, rest := trials[0], trials[1..];
      TriedAllWrites(Tried(w, id, t), id, rest);
      var w' := TriedAll(w, id, trials);
      assert trials == [t] + rest;
      assert w'.external == w.external + set t | t in trials && t.attempt.Succeeds? :: Registration(id, t.hook);
    }
  }

  /** A call writes the trials it reaches, and clears the workflow if the last of them does not pass. */
  lemma {:induction false} AddAllComesTo(w: World, id: string, trials: seq<Trial>, mode: ActivationMode, c: Clearing)
    ensures var written := TriedAll(w, id, Reached(trials, mode));
            AddAll(w, id, trials, mode, c)
            == (if LoopThrows(trials, mode) then Added(Cleared(written, id, c), true) else Added(written, false))
    decreases |trials|
  {
    if trials != [] {
      var t, rest := trials[0], trials[1..];
      assert trials == [t] + rest;
      if Passes(mode, t) {
        AddAllComesTo(Tried(w, id, t), id, rest, mode, c);
        assert Reached(trials, mode)[1..] == Reached(rest, mode);
        assert LoopThrows(trials, mode) == LoopThrows(rest, mode) by {
          if LoopThrows(trials, mode) {
            var x :| x in trials && !Passes(mode, x);
            assert x in rest;
          }
        }
      } else {
        assert t in trials;
        assert Reached(trials, mode) == [t] && [t][1..] == [];
        assert TriedAll(w, id, [t]) == TriedAll(Tried(w, id, t), id, []);
      }
    }
  }

  /** Whether a call throws can be told from what the environment does, whatever the table holds. */
  lemma ThrowsExactly(w: World, id: string, trials: seq<Trial>, mode: ActivationMode, c: Clearing, finishFails: bool)
    ensures Registering(w, id, trials, mode, c, finishFails).thrown <==> Throws(trials, mode, finishFails)
  {
    AddAllComesTo(w, id, trials, mode, c);
  }

  lemma {:induction false} ReachedAll(trials: seq<Trial>, mode: ActivationMode)
    requires !LoopThrows(trials, mode)
    ensures Reached(trials, mode) == trials
  {
    if trials != [] {
      assert trials == [trials[0]] + trials[1..];
      assert trials[0] in trials;
      forall t | t in trials[1..] ensures Passes(mode, t) {
        assert t in trials;
      }
      ReachedAll(trials[1..], mode);
    }
  }

  lemma {:induction false} LastStoredIs(trials: seq<Trial>, key: Key)
    ensures LastStored(trials, key).Some? <==> exists t :: t in trials && Stores(t) && KeyOf(t.hook) == key
    ensures LastStored(trials, key).Some? ==> KeyOf(LastStored(trials, key).value) == key
  {
    if trials != [] {
      LastStoredIs(trials[1..], key);
      assert trials == [trials[0]] + trials[1..];
    }
  }

  // ---------------------------------------------------------------- the results

  /** No row and no external registration of the workflow. */
  ghost predicate NothingOf(w: World, id: string) {
    && (forall k :: k in w.rows ==> w.rows[k].workflowId != id)
    && (forall r :: r in w.external ==> r.workflowId != id)
  }

  /** Every external registration of the workflow is of a webhook that the stored workflow defines. */
  ghost predicate DefinedOnly(w: World, id: string, defined: seq<Hook>) {
    forall r :: r in w.external && r.workflowId == id ==> r.hook in defined
  }

  /**
   * If the call returns, every webhook that stored its row has its key in the table, owned by this
   * workflow; outside initialisation that is every webhook, and every one is registered externally.
   */
  lemma SuccessOwnsEveryKey(w: World, id: string, trials: seq<Trial>, mode: ActivationMode, c: Clearing, finishFails: bool, t: Trial)
    requires t in trials
    requires !Registering(w, id, trials, mode, c, finishFails).thrown
    ensures var w' := Registering(w, id, trials, mode, c, finishFails).world;
            && (Stores(t) ==> KeyOf(t.hook) in w'.rows && w'.rows[KeyOf(t.hook)].workflowId == id)
            && (!mode.Init? ==> Stores(t) && Registration(id, t.hook) in w'.external)
  {
    AddAllComesTo(w, id, trials, mode, c);
    ReachedAll(trials, mode);
    TriedAllWrites(w, id, trials);
    LastStoredIs(trials, KeyOf(t.hook));
    assert Passes(mode, t);
  }

  /** If the call returns, the table is written exactly: the last webhook that stores a key owns it, other rows are as before. */
  lemma SuccessWritesExactly(w: World, id: string, trials: seq<Trial>, mode: ActivationMode, c: Clearing, finishFails: bool)
    requires !Registering(w, id, trials, mode, c, finishFails).thrown
    ensures Written(w, id, trials, Registering(w, id, trials, mode, c, finishFails).world)
  {
    AddAllComesTo(w, id, trials, mode, c);
    ReachedAll(trials, mode);
    TriedAllWrites(w, id, trials);
  }

  // ---------------------------------------------------------------- the rows in plain terms

  /** The trial at `i` stores the last row under method and path, where the path is the raw one stripped. */
  ghost predicate StoresLast(trials: seq<Trial>, i: nat, httpMethod: string, path: string) {
    && i < |trials| && StoresUnder(trials[i], httpMethod, path)
    && forall j :: i < j < |trials| ==> !StoresUnder(trials[j], httpMethod, path)
  }

  predicate StoresUnder(t: Trial, httpMethod: string, path: string) {
    && !t.attempt.StoreFails?
    && t.hook.httpMethod == httpMethod && WP.Stripped(t.hook.path) == path
  }

  lemma {:induction false} LastStoredExactly(trials: seq<Trial>, i: nat, httpMethod: string, path: string)
    requires StoresLast(trials, i, httpMethod, path)
    ensures LastStored(trials, Key(httpMethod, path)) == Some(trials[i].hook)
  {
    var rest := trials[1..];
    if i > 0 {
      assert StoresLast(rest, i - 1, httpMethod, path);
      LastStoredExactly(rest, i - 1, httpMethod, path);
    } else {
      LastStoredIs(rest, Key(httpMethod, path));
      assert forall t :: t in rest ==> !StoresUnder(t, httpMethod, path);
    }
  }

  /** Some segment of the raw path starts with a colon, and the node has a webhook id. */
  ghost predicate RecordsLength(hook: Hook) {
    WP.SomeColon(WP.Split(hook.path)) && hook.webhookId.Some? && |hook.webhookId.value| > 0
  }

  /**
   * The row that a call that returns leaves under a key: workflow and node of the last webhook stored there, and
   * the node's webhook id with the number of segments if and only if some segment of the raw path starts with
   * a colon and that id is not empty. The number is that of the raw path less the slashes stripped.
   */
  lemma SuccessRow(w: World, id: string, trials: seq<Trial>, mode: ActivationMode, c: Clearing, finishFails: bool, i: nat, httpMethod: string, path: string)
    requires !Registering(w, id, trials, mode, c, finishFails).thrown && StoresLast(trials, i, httpMethod, path)
    ensures var rows, hook := Registering(w, id, trials, mode, c, finishFails).world.rows, trials[i].hook;
            && Key(httpMethod, path) in rows
            && var row := rows[Key(httpMethod, path)];
            && row.workflowId == id && row.node == hook.node
            && (row.webhookId.Some? <==> RecordsLength(hook)) && (row.pathLength.Some? <==> RecordsLength(hook))
            && (RecordsLength(hook) ==> row.webhookId == hook.webhookId
                                        && row.pathLength.value == |WP.Split(hook.path)| - WP.SlashesStripped(hook.path))
  {
    SuccessWritesExactly(w, id, trials, mode, c, finishFails);
    LastStoredExactly(trials, i, httpMethod, path);
    WP.DynamicMeansColonSegment(trials[i].hook.path);
    WP.LengthOfStripped(trials[i].hook.path);
  }

  /** What `findDynamicWebhook` asks the table for: the first segment of the request is the id, the number of the others the length. */
  predicate FoundFor(key: Key, row: Row, httpMethod: string, request: string) {
    var segments := WP.Split(request);
    key.httpMethod == httpMethod && row.webhookId == Some(segments[0]) && row.pathLength == Some(|segments| - 1)
  }

  /**
   * A request `<webhook id>/<path>` finds the row that a successful call has left for a webhook exactly if the
   * webhook has a segment that starts with a colon and as many segments, slashes stripped, as the path asked for.
   */
  lemma RequestFindsRow(w: World, id: string, trials: seq<Trial>, mode: ActivationMode, c: Clearing, finishFails: bool, i: nat, httpMethod: string, path: string,
                        webhookId: string, request: string)
    requires !Registering(w, id, trials, mode, c, finishFails).thrown && StoresLast(trials, i, httpMethod, path)
    requires '/' !in webhookId && webhookId != "" && trials[i].hook.webhookId == Some(webhookId)
    ensures var rows, raw, key := Registering(w, id, trials, mode, c, finishFails).world.rows, trials[i].hook.path, Key(httpMethod, path);
            && key in rows
            && (FoundFor(key, rows[key], httpMethod, webhookId + "/" + request)
                <==> WP.SomeColon(WP.Split(raw)) && |WP.Split(request)| == |WP.Split(raw)| - WP.SlashesStripped(raw))
  {
    SuccessRow(w, id, trials, mode, c, finishFails, i, httpMethod, path);
    WP.LookupLength(trials[i].hook.path, webhookId, request);
    WP.LengthOfStripped(trials[i].hook.path);
    var segments := WP.Split(webhookId + "/" + request);
    assert |segments[1..]| == |segments| - 1;
  }

  /** A webhook makes the call throw if it fails, unless on initialisation its failure is that of a query. */
  predicate IsFatal(t: Trial, mode: ActivationMode) {
    match t.attempt
    case Succeeds => false
    case StoreFails(queryFailed) => mode != Init || !queryFailed
    case CreateFails(queryFailed) => mode != Init || !queryFailed
  }

  /** A call throws exactly if some webhook fails fatally, or there are webhooks and filling the cache fails. */
  lemma ThrowsOnFatal(w: World, id: string, trials: seq<Trial>, mode: ActivationMode, c: Clearing, finishFails: bool)
    ensures Registering(w, id, trials, mode, c, finishFails).thrown
       <==> (exists i :: 0 <= i < |trials| && IsFatal(trials[i], mode)) || (|trials| > 0 && finishFails)
  {
    ThrowsExactly(w, id, trials, mode, c, finishFails);
    forall t | t in trials
      ensures Passes(mode, t) <==> !IsFatal(t, mode)
    {
    }
    if LoopThrows(trials, mode) {
      var t :| t in trials && !Passes(mode, t);
      var i :| 0 <= i < |trials| && trials[i] == t;
      assert IsFatal(trials[i], mode);
    }
  }

  /**
   * If a webhook fails and clearing succeeds, no row of the workflow remains, and no registration of it
   * either if and only if the stored workflow defines every webhook that was registered for it before or
   * by this call.
   */
  lemma FailureLeavesNothingIfDefined(w: World, id: string, trials: seq<Trial>, mode: ActivationMode, c: Clearing, finishFails: bool)
    requires LoopThrows(trials, mode) && c.outcome.AllCleared?
    ensures var r := Registering(w, id, trials, mode, c, finishFails);
            && r.thrown && (forall k :: k in r.world.rows ==> r.world.rows[k].workflowId != id)
            && (NothingOf(r.world, id)
                <==> DefinedOnly(w, id, c.defined)
                     && forall t :: t in Reached(trials, mode) && t.attempt.Succeeds? ==> t.hook in c.defined)
  {
    AddAllComesTo(w, id, trials, mode, c);
    var reached := Reached(trials, mode);
    TriedAllWrites(w, id, reached);
    ClearedLeaves(w, id, reached, c);
  }

  lemma ClearedLeaves(w: World, id: string, reached: seq<Trial>, c: Clearing)
    requires c.outcome.AllCleared?
    ensures NothingOf(Cleared(TriedAll(w, id, reached), id, c), id)
       <==> DefinedOnly(w, id, c.defined) && forall t :: t in reached && t.attempt.Succeeds? ==> t.hook in c.defined
  {
    TriedAllWrites(w, id, reached);
    var written := TriedAll(w, id, reached);
    var cleared := Cleared(written, id, c);
    if NothingOf(cleared, id) {
      forall t | t in reached && t.attempt.Succeeds?
        ensures t.hook in c.defined
      {
        var r := Registration(id, t.hook);
        assert r in written.external && r !in cleared.external;
      }
      forall r | r in w.external && r.workflowId == id
        ensures r.hook in c.defined
      {
        assert r in written.external && r !in cleared.external;
      }
    }
  }

  /** In particular, the webhooks of the call being those of the stored workflow, nothing of it remains. */
  lemma FailureLeavesNothing(w: World, id: string, trials: seq<Trial>, mode: ActivationMode, c: Clearing, finishFails: bool)
    requires LoopThrows(trials, mode) && c.outcome.AllCleared?
    requires DefinedOnly(w, id, c.defined) && forall t :: t in trials ==> t.hook in c.defined
    ensures var r := Registering(w, id, trials, mode, c, finishFails);
            r.thrown && NothingOf(r.world, id)
  {
    FailureLeavesNothingIfDefined(w, id, trials, mode, c, finishFails);
    forall t | t in Reached(trials, mode) ensures t in trials {
      ReachedWithin(trials, mode, t);
    }
  }

  lemma {:induction false} ReachedWithin(trials: seq<Trial>, mode: ActivationMode, t: Trial)
    requires t in Reached(trials, mode)
    ensures t in trials
  {
    if t != trials[0] {
      ReachedWithin(trials[1..], mode, t);
    }
  }

  /**
   * When the call throws after it has stored a row, the rows of the workflow are gone exactly if it was
   * a webhook that failed and clearing got to its end. A failure after the loop leaves them all.
   */
  lemma ThrowLeavesRowsUnlessCleared(w: World, id: string, trials: seq<Trial>, mode: ActivationMode, c: Clearing, finishFails: bool)
    requires Registering(w, id, trials, mode, c, finishFails).thrown
    requires exists t :: t in Reached(trials, mode) && Stores(t)
    ensures var w' := Registering(w, id, trials, mode, c, finishFails).world;
            (forall k :: k in w'.rows ==> w'.rows[k].workflowId != id)
            <==> LoopThrows(trials, mode) && c.outcome.AllCleared?
  {
    AddAllComesTo(w, id, trials, mode, c);
    StoredRowsOwned(w, id, Reached(trials, mode));
    RowsClearedOnlyByAll(TriedAll(w, id, Reached(trials, mode)), id, c);
  }

  lemma StoredRowsOwned(w: World, id: string, reached: seq<Trial>)
    requires exists t :: t in reached && Stores(t)
    ensures exists k :: k in TriedAll(w, id, reached).rows && TriedAll(w, id, reached).rows[k].workflowId == id
  {
    var t :| t in reached && Stores(t);
    TriedAllWrites(w, id, reached);
    LastStoredIs(reached, KeyOf(t.hook));
    assert KeyOf(t.hook) in TriedAll(w, id, reached).rows;
  }

  lemma RowsClearedOnlyByAll(w: World, id: string, c: Clearing)
    requires exists k :: k in w.rows && w.rows[k].workflowId == id
    ensures (forall k :: k in Cleared(w, id, c).rows ==> Cleared(w, id, c).rows[k].workflowId != id) <==> c.outcome.AllCleared?
  {
    var k :| k in w.rows && w.rows[k].workflowId == id;
    assert !c.outcome.AllCleared? ==> k in Cleared(w, id, c).rows && Cleared(w, id, c).rows[k] == w.rows[k];
  }

  /**
   * A row of another workflow survives a call, whether it returns or throws, exactly if no webhook that
   * was stored has its key: the upsert takes the row over, and clearing then deletes it.
   */
  lemma OthersKeepUncontestedRows(w: World, id: string, trials: seq<Trial>, mode: ActivationMode, c: Clearing, finishFails: bool, key: Key)
    requires key in w.rows && w.rows[key].workflowId != id
    ensures var w' := Registering(w, id, trials, mode, c, finishFails).world;
            (key in w'.rows && w'.rows[key] == w.rows[key])
            <==> forall t :: t in Reached(trials, mode) && Stores(t) ==> KeyOf(t.hook) != key
  {
    AddAllComesTo(w, id, trials, mode, c);
    var reached := Reached(trials, mode);
    OthersRow(w, id, reached, c, key);
    LastStoredIs(reached, key);
  }

  lemma OthersRow(w: World, id: string, reached: seq<Trial>, c: Clearing, key: Key)
    requires key in w.rows && w.rows[key].workflowId != id
    ensures var written := TriedAll(w, id, reached);
            var cleared := Cleared(written, id, c);
            && (LastStored(reached, key).None? ==>
                  && key in written.rows && written.rows[key] == w.rows[key]
                  && key in cleared.rows && cleared.rows[key] == w.rows[key])
            && (LastStored(reached, key).Some? ==>
                  && key in written.rows && written.rows[key] != w.rows[key]
                  && !(key in cleared.rows && cleared.rows[key] == w.rows[key]))
  {
    TriedAllWrites(w, id, reached);
  }

  /** A contested row is lost for good when the call fails and is cleared. */
  lemma ContestedRowDeleted(w: World, id: string, trials: seq<Trial>, mode: ActivationMode, c: Clearing, t: Trial)
    requires LoopThrows(trials, mode) && c.outcome.AllCleared?
    requires t in Reached(trials, mode) && Stores(t)
    ensures KeyOf(t.hook) !in Registering(w, id, trials, mode, c, false).world.rows
  {
    AddAllComesTo(w, id, trials, mode, c);
    TriedAllWrites(w, id, Reached(trials, mode));
    LastStoredIs(Reached(trials, mode), KeyOf(t.hook));
  }

  // ---------------------------------------------------------------- the service

  class WebhookRegistry {
    var rows: map<Key, Row>
    var external: set<Registration>

    ghost function Contents(): World
      reads this
    {
      World(rows, external)
    }

    constructor (rows: map<Key, Row>, external: set<Registration>)
      ensures Contents() == World(rows, external)
    {
      this.rows, this.external := rows, external;
    }

    /** Returns whether the call throws. */
    method AddWebhooks(id: string, trials: seq<Trial>, mode: ActivationMode, c: Clearing, finishFails: bool) returns (thrown: bool)
      modifies this
      ensures Added(Contents(), thrown) == Registering(old(Contents()), id, trials, mode, c, finishFails)
    {
      if trials == [] {
        return false;
      }
      assert trials[0..] == trials;
      var i := 0;
      while i < |trials|
        invariant 0 <= i <= |trials|
        invariant AddAll(Contents(), id, trials[i..], mode, c) == AddAll(old(Contents()), id, trials, mode, c)
      {
        ghost var before := Contents();
        var trial := trials[i];
        assert trials[i..][1..] == trials[i + 1..];
        if Stores(trial) {
          StoreWebhook(id, trial.hook);
        }
        if trial.attempt.Succeeds? {
          external := external + {Registration(id, trial.hook)};
        }
        assert Contents() == Tried(before, id, trial);
        if !Passes(mode, trial) {
          ClearWebhooks(id, c);
          return true;
        }
        i := i + 1;
      }
      assert trials[i..] == [];
      thrown := finishFails;
    }

    /** Upsert on method and path. */
    method StoreWebhook(id: string, hook: Hook)
      modifies this`rows
      ensures rows == old(rows)[KeyOf(hook) := RowOf(id, hook)]
    {
      var path := hook.path;
      if path != "" && path[0] == '/' {
        path := path[1..];
      }
      if path != "" && path[|path| - 1] == '/' {
        path := path[..|path| - 1];
      }
      var row := Row(id, hook.node, None, None);
      if WP.IsDynamic(hook.path) && hook.webhookId.Some? && hook.webhookId.value != "" {
        row := row.(webhookId := hook.webhookId, pathLength := Some(|WP.Split(path)|));
      }
      rows := rows[Key(hook.httpMethod, path) := row];
    }

    method ClearWebhooks(id: string, c: Clearing)
      modifies this
      ensures Contents() == Cleared(old(Contents()), id, c)
    {
      if c.outcome.WorkflowMissing? {
        return;
      }
      var i := 0;
      while i < |c.defined| && !(c.outcome.DeleteFails? && i == c.outcome.at)
        invariant 0 <= i <= |c.defined|
        invariant c.outcome.DeleteFails? ==> i <= c.outcome.at
        invariant external == Deregistered(old(external), id, c.defined[..i])
        invariant rows == old(rows)
      {
        external := external - {Registration(id, c.defined[i])};
        assert c.defined[..i + 1] == c.defined[..i] + [c.defined[i]];
        i := i + 1;
      }
      if c.outcome.DeleteFails? {
        assert c.defined[..i] == if c.outcome.at <= |c.defined| then c.defined[..c.outcome.at] else c.defined;
        return;
      }
      assert c.defined[..i] == c.defined;
      if c.outcome.AllCleared? {
        rows := WithoutRowsOf(rows, id);
      }
    }
  }
}
