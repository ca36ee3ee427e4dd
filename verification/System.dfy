/** The orchestrator process as a transition system: creates, drives of any
    number of deployments in any interleaving, and crashes. */
module System {
  import opened Wrappers
  import opened Lifecycle
  import opened ValueObjects
  import opened Resources
  import opened Aggregate
  import opened Persistence
  import opened Ports
  import opened Admission
  import opened Reserved
  import opened PlatformLayer
  import opened Publisher
  import opened Driver
  import opened Invariant
  import opened Outcome

  datatype Setup = Setup(cfg: Config, gates: Gates)

  // The store, the in-flight set and the active drives; created is what each
  // accepted create built, and trace every effect so far.
  datatype State = State(docs: Docs, inflight: set<string>, drives: map<nat, Drive>,
                         created: map<string, Agg>, trace: seq<Effect>)

  datatype Action =
    | Create(branch: Option<Result<bool>>, cmd: Command, now: Timestamp, answer: Answer)
    | Begin(g: nat, id: string)
    | Move(g: nat, answer: Answer)
    | Release(g: nat)
    | Crash

  const INITIAL := State(map[], {}, map[], map[], [])

  // An action that is not possible leaves the state as it is. In particular one
  // deployment id is created once.
  ghost function Next(s: Setup, st: State, action: Action): State {
    match action
    case Create(branch, cmd, now, answer) =>
      (match Admit(s.gates, branch, cmd, now)
       case Err(_) => st
       case Ok(d) =>
         if d.id in st.created then st
         else st.(docs := SaveAnswered(st.docs, d, answer), created := st.created[d.id := d]))
    case Begin(g, id) =>
      // acquire: a deployment already in flight is left to its drive.
      if g in st.drives || id in st.inflight then st
      else st.(inflight := st.inflight + {id}, drives := st.drives[g := Loading(id)])
    case Move(g, answer) =>
      if g !in st.drives then st
      else
        var c := DriveStep(s.cfg, Conf(st.drives[g], st.docs, st.trace), answer);
        st.(docs := c.docs, drives := st.drives[g := c.drive], trace := c.trace)
    case Release(g) =>
      if g !in st.drives || !st.drives[g].Returning? then st
      else st.(inflight := st.inflight - {st.drives[g].id}, drives := st.drives - {g})
    case Crash => st.(inflight := {}, drives := map[])
  }

  ghost function Run(s: Setup, actions: seq<Action>): State {
    if actions == [] then INITIAL else Next(s, Run(s, actions[..|actions| - 1]), actions[|actions| - 1])
  }

  // --- The invariant ---

  // The locks are exactly the deployments being driven, each by one drive.
  ghost predicate LocksOk(st: State) {
    && (forall g :: g in st.drives ==> st.drives[g].id in st.inflight)
    && (forall id :: id in st.inflight ==> exists g :: g in st.drives && st.drives[g].id == id)
    && (forall g, h :: g in st.drives && h in st.drives && g != h ==> st.drives[g].id != st.drives[h].id)
  }

  // A created deployment is a fresh, sound, authorized one.
  ghost predicate CreatedOk(s: Setup, id: string, d: Agg) {
    && d.id == id && d == Fresh(d.origin) && ValidOrigin(d.origin)
    && Authorized(s.gates.resourcePolicy, d.origin.resources, d.origin.target.environment)
    && NeverSets(d.origin.values)
    && AllowlistAdmits(s.gates, d.origin.values, d.origin.target.environment)
  }

  ghost predicate RecordOk(s: Setup, id: string, st: State) {
    if id in st.created then
      && CreatedOk(s, id, st.created[id])
      && StoreOk(id, st.created[id].origin, st.docs, st.trace)
      && Pushes(id, st.trace) <= 1
      && AllProper(s.cfg, id, st.created[id].origin, st.trace)
    else id !in st.docs && Pushes(id, st.trace) == 0 && Untouched(id, st.trace)
  }

  // Nothing was done for the deployment.
  ghost predicate Untouched(id: string, trace: seq<Effect>) {
    forall i :: 0 <= i < |trace| ==> trace[i].id != id
  }

  ghost predicate ActiveOk(s: Setup, st: State, drive: Drive) {
    if drive.id in st.created then
      var o := st.created[drive.id].origin;
      DriveOk(o, drive, st.docs, st.trace) && Grounded(s.cfg, o, drive, st.trace)
    else !drive.Driving?
  }

  ghost predicate Inv(s: Setup, st: State) {
    && LocksOk(st)
    && (forall id :: RecordOk(s, id, st))
    && (forall g :: g in st.drives ==> ActiveOk(s, st, st.drives[g]))
    && InOrder(st.trace)
  }

  // --- Every action keeps it ---

  // What is known of one deployment survives a step of another.
  lemma {:induction false} OthersKept(cfg: Config, id: string, o: Origin, docs: Docs, after: Docs,
                                      trace: seq<Effect>, more: seq<Effect>)
    requires StoreOk(id, o, docs, trace) && AllProper(cfg, id, o, trace)
    requires Stored(after, id) == Stored(docs, id)
    requires |more| <= 1 && (more != [] ==> more[0].id != id)
    ensures StoreOk(id, o, after, trace + more) && AllProper(cfg, id, o, trace + more)
    ensures Pushes(id, trace + more) == Pushes(id, trace)
    ensures forall drive: Drive ::
      drive.id == id && DriveOk(o, drive, docs, trace) && Grounded(cfg, o, drive, trace) ==>
        DriveOk(o, drive, after, trace + more) && Grounded(cfg, o, drive, trace + more)
  {
    hide FromDoc, ToDoc, WellFormed, ComposedFrom, ArtifactFor, Pushes, NothingCleared, Reaches, Evidence, PcOk;
    PushesGrow(id, trace, more);
    if id in docs {
      EvidenceGrows(Last(docs, id), trace, more);
    }
    ProperGrows(cfg, id, o, trace, more);
    forall drive: Drive | drive.id == id && DriveOk(o, drive, docs, trace) && Grounded(cfg, o, drive, trace)
      ensures DriveOk(o, drive, after, trace + more) && Grounded(cfg, o, drive, trace + more)
    {
      OtherDriveKept(cfg, o, drive, docs, after, trace, more);
    }
  }

  lemma {:induction false} OtherDriveKept(cfg: Config, o: Origin, drive: Drive, docs: Docs, after: Docs,
                                          trace: seq<Effect>, more: seq<Effect>)
    requires DriveOk(o, drive, docs, trace) && Grounded(cfg, o, drive, trace)
    requires Stored(after, drive.id) == Stored(docs, drive.id)
    requires |more| <= 1 && (more != [] ==> more[0].id != drive.id)
    ensures DriveOk(o, drive, after, trace + more) && Grounded(cfg, o, drive, trace + more)
  {
    hide FromDoc, WellFormed, ComposedFrom, Pushes, NothingCleared, Reaches, Evidence, PcOk, SpecOf,
      LastResolved, LastDone, MetadataOf;
    PushesGrow(drive.id, trace, more);
    LastGrows(drive.id, trace, more);
    if drive.Driving? {
      EvidenceGrows(drive.d, trace, more);
    }
  }

  // The state n differs from st in the deployment id only.
  ghost predicate OnlyTouches(id: string, st: State, n: State, more: seq<Effect>) {
    && n.trace == st.trace + more && |more| <= 1 && (more != [] ==> more[0].id == id)
    && forall x :: x != id ==>
         Stored(n.docs, x) == Stored(st.docs, x) && (x in n.created <==> x in st.created)
         && (x in st.created ==> n.created[x] == st.created[x])
  }

  lemma {:induction false} RestKept(s: Setup, id: string, st: State, n: State, more: seq<Effect>, x: string)
    requires OnlyTouches(id, st, n, more) && x != id && RecordOk(s, x, st)
    ensures RecordOk(s, x, n)
    ensures forall drive: Drive :: drive.id == x && ActiveOk(s, st, drive) ==> ActiveOk(s, n, drive)
  {
    hide StoreOk, DriveOk, AllProper, CreatedOk, Pushes;
    if x in st.created {
      OthersKept(s.cfg, x, st.created[x].origin, st.docs, n.docs, st.trace, more);
    } else {
      PushesGrow(x, st.trace, more);
      assert Stored(n.docs, x) == Stored(st.docs, x);
    }
  }

  // So a step keeps the invariant when it keeps it for the deployment it touches.
  lemma {:induction false} InvFromOne(s: Setup, id: string, st: State, n: State, more: seq<Effect>)
    requires Inv(s, st) && OnlyTouches(id, st, n, more)
    requires LocksOk(n) && RecordOk(s, id, n) && InOrder(n.trace)
    requires forall g :: g in n.drives ==>
      ActiveOk(s, n, n.drives[g]) || (g in st.drives && n.drives[g] == st.drives[g] && n.drives[g].id != id)
    ensures Inv(s, n)
  {
    hide RecordOk, ActiveOk, LocksOk, InOrder, OnlyTouches;
    forall x
      ensures RecordOk(s, x, n)
    {
      if x != id {
        RestKept(s, id, st, n, more, x);
      }
    }
    forall g | g in n.drives
      ensures ActiveOk(s, n, n.drives[g])
    {
      if g in st.drives && n.drives[g] == st.drives[g] && n.drives[g].id != id {
        RestKept(s, id, st, n, more, n.drives[g].id);
      }
    }
  }

  lemma {:induction false} CreateKeeps(s: Setup, st: State, branch: Option<Result<bool>>, cmd: Command,
                                       now: Timestamp, a: Answer)
    requires Inv(s, st)
    ensures Inv(s, Next(s, st, Create(branch, cmd, now, a)))
  {
    var n := Next(s, st, Create(branch, cmd, now, a));
    hide Admit, StoreOk, DriveOk, AllProper, Pushes, ValidOrigin, InOrder, Authorized, SaveAnswered, Inv,
      BuildAll, NeverSets, Fresh, AllowlistAdmits;
    if Admit(s.gates, branch, cmd, now).Ok? && Admit(s.gates, branch, cmd, now).value.id !in st.created {
      var d := Admit(s.gates, branch, cmd, now).value;
      AdmittedIsSound(s.gates, branch, cmd, now);
      assert RecordOk(s, d.id, st) && InOrder(st.trace) && LocksOk(st) by { UnfoldInv(s, st, d.id); }
      FreshIsSound(s, d, st.docs, st.trace, a);
      assert st.trace + [] == st.trace;
      assert OnlyTouches(d.id, st, n, []);
      forall g | g in n.drives && n.drives[g].id == d.id
        ensures ActiveOk(s, n, n.drives[g])
      {
        assert ActiveOk(s, st, st.drives[g]) by { UnfoldInv(s, st, d.id); }
        NotDriving(s.cfg, d.origin, n.drives[g], n.docs, n.trace);
      }
      InvFromOne(s, d.id, st, n, []);
    }
  }

  lemma UnfoldInv(s: Setup, st: State, id: string)
    requires Inv(s, st)
    ensures RecordOk(s, id, st) && InOrder(st.trace) && LocksOk(st)
    ensures forall g :: g in st.drives ==> ActiveOk(s, st, st.drives[g])
  {
  }

  lemma NotDriving(cfg: Config, o: Origin, drive: Drive, docs: Docs, trace: seq<Effect>)
    requires !drive.Driving?
    ensures DriveOk(o, drive, docs, trace) && Grounded(cfg, o, drive, trace)
  {
  }

  // The initial save of a fresh deployment, whether or not it is applied.
  lemma {:induction false} FreshIsSound(s: Setup, d: Agg, docs: Docs, trace: seq<Effect>, a: Answer)
    requires d == Fresh(d.origin) && ValidOrigin(d.origin) && d.id !in docs
    requires Pushes(d.id, trace) == 0 && Untouched(d.id, trace)
    ensures
      var after := SaveAnswered(docs, d, a);
      && StoreOk(d.id, d.origin, after, trace)
      && AllProper(s.cfg, d.id, d.origin, trace)
      && forall other :: other != d.id ==> Stored(after, other) == Stored(docs, other)
  {
    hide NewResource;
    SaveThenFind(docs, d);
  }

  // Actions that only take or give back locks.
  lemma {:induction false} RecordsKept(s: Setup, st: State, n: State)
    requires Inv(s, st) && n.docs == st.docs && n.created == st.created && n.trace == st.trace
    requires LocksOk(n)
    requires forall g :: g in n.drives ==> n.drives[g].Loading? || (g in st.drives && n.drives[g] == st.drives[g])
    ensures Inv(s, n)
  {
    hide StoreOk, AllProper, CreatedOk, InOrder, Pushes, LocksOk, MemoryOk, PcOk;
    forall id
      ensures RecordOk(s, id, n)
    {
      assert RecordOk(s, id, st);
    }
    forall g | g in n.drives
      ensures ActiveOk(s, n, n.drives[g])
    {
      if !n.drives[g].Loading? {
        assert ActiveOk(s, st, st.drives[g]);
      }
    }
  }

  lemma {:induction false} BeginKeeps(s: Setup, st: State, g: nat, id: string)
    requires Inv(s, st)
    ensures Inv(s, Next(s, st, Begin(g, id)))
  {
    var n := Next(s, st, Begin(g, id));
    hide RecordOk, ActiveOk, InOrder;
    if n != st {
      forall x | x in n.inflight
        ensures exists h :: h in n.drives && n.drives[h].id == x
      {
        if x in st.inflight {
          var h :| h in st.drives && st.drives[h].id == x;
          assert h in n.drives && n.drives[h].id == x;
        } else {
          assert g in n.drives && n.drives[g].id == x;
        }
      }
      hide Inv;
      RecordsKept(s, st, n);
    }
  }

  lemma {:induction false} ReleaseKeeps(s: Setup, st: State, g: nat)
    requires Inv(s, st)
    ensures Inv(s, Next(s, st, Release(g)))
  {
    var n := Next(s, st, Release(g));
    hide RecordOk, ActiveOk, InOrder;
    if n != st {
      forall x | x in n.inflight
        ensures exists h :: h in n.drives && n.drives[h].id == x
      {
        var h :| h in st.drives && st.drives[h].id == x;
        assert h in n.drives && n.drives[h].id == x;
      }
      hide Inv;
      RecordsKept(s, st, n);
    }
  }

  lemma {:induction false} CrashKeeps(s: Setup, st: State)
    requires Inv(s, st)
    ensures Inv(s, Next(s, st, Crash))
  {
    hide Inv;
    RecordsKept(s, st, Next(s, st, Crash));
  }

  // A drive of a deployment nobody created finds nothing and returns.
  lemma {:induction false} StrangerReturns(cfg: Config, drive: Drive, docs: Docs, trace: seq<Effect>, a: Answer)
    requires !drive.Driving? && drive.id !in docs
    ensures
      var n := DriveStep(cfg, Conf(drive, docs, trace), a);
      n.docs == docs && n.trace == trace && n.drive.Returning? && n.drive.id == drive.id
  {
    assert trace + [] == trace;
  }

  // What one step leaves of the deployment it drives, and of no other.
  ghost predicate MovedOne(s: Setup, st: State, n: State, g: nat) {
    && g in st.drives
    && var id := st.drives[g].id;
    && (exists more :: OnlyTouches(id, st, n, more))
    && RecordOk(s, id, n) && InOrder(n.trace)
    && n.inflight == st.inflight && n.created == st.created
    && g in n.drives && n.drives[g].id == id && ActiveOk(s, n, n.drives[g])
    && n.drives == st.drives[g := n.drives[g]]
  }

  // The step itself, for the deployment it drives.
  lemma {:induction false} MoveStep(s: Setup, st: State, g: nat, a: Answer)
    requires Inv(s, st) && g in st.drives && st.drives[g].id in st.created
    ensures
      var n, drive := Next(s, st, Move(g, a)), st.drives[g];
      var more := Effects(s.cfg, drive, a);
      && DeploymentOk(s.cfg, st.created[drive.id].origin, Conf(drive, st.docs, st.trace))
      && DeploymentOk(s.cfg, st.created[drive.id].origin, Conf(n.drives[g], n.docs, n.trace))
      && n.drives[g].id == drive.id && n.trace == st.trace + more
      && |more| <= 1 && (more != [] ==> more[0].id == drive.id)
      && (forall x :: x != drive.id ==>
            Stored(n.docs, x) == Stored(st.docs, x) && Pushes(x, n.trace) == Pushes(x, st.trace))
  {
    var drive := st.drives[g];
    var o := st.created[drive.id].origin;
    hide StoreOk, DriveOk, AllProper, InOrder, Pushes, NextDrive, NextDocs, Effects, ValidOrigin, Justified,
      Fresh, LocksOk, Authorized, NeverSets;
    assert RecordOk(s, drive.id, st) && ActiveOk(s, st, drive);
    StepKeeps(s.cfg, o, Conf(drive, st.docs, st.trace), a);
    EffectsJustified(s.cfg, o, drive, st.docs, st.trace, a);
  }

  lemma {:induction false} StrangerMoves(s: Setup, st: State, g: nat, a: Answer)
    requires Inv(s, st) && g in st.drives && st.drives[g].id !in st.created
    ensures MovedOne(s, st, Next(s, st, Move(g, a)), g)
  {
    hide StoreOk, DriveOk, AllProper, CreatedOk, InOrder, Pushes, NextDrive, NextDocs, Effects;
    var drive, n := st.drives[g], Next(s, st, Move(g, a));
    assert RecordOk(s, drive.id, st) && ActiveOk(s, st, drive);
    StrangerReturns(s.cfg, drive, st.docs, st.trace, a);
    assert st.trace + [] == st.trace;
    assert OnlyTouches(drive.id, st, n, []);
  }

  lemma {:induction false} CreatedMoves(s: Setup, st: State, g: nat, a: Answer)
    requires Inv(s, st) && g in st.drives && st.drives[g].id in st.created
    ensures MovedOne(s, st, Next(s, st, Move(g, a)), g)
  {
    hide StoreOk, DriveOk, AllProper, CreatedOk, InOrder, Pushes, NextDrive, NextDocs, Effects;
    var drive, n := st.drives[g], Next(s, st, Move(g, a));
    assert RecordOk(s, drive.id, st) && ActiveOk(s, st, drive);
    MoveStep(s, st, g, a);
    assert OnlyTouches(drive.id, st, n, Effects(s.cfg, drive, a));
  }

  lemma {:induction false} MovedOneKeeps(s: Setup, st: State, n: State, g: nat)
    requires Inv(s, st) && MovedOne(s, st, n, g)
    ensures Inv(s, n)
  {
    hide RecordOk, ActiveOk, InOrder, OnlyTouches, Inv, LocksOk;
    var id := st.drives[g].id;
    UnfoldInv(s, st, id);
    SameLocks(st, n, g);
    var more :| OnlyTouches(id, st, n, more);
    InvFromOne(s, id, st, n, more);
  }

  lemma {:induction false} MoveKeeps(s: Setup, st: State, g: nat, a: Answer)
    requires Inv(s, st)
    ensures Inv(s, Next(s, st, Move(g, a)))
  {
    hide Inv, MovedOne, DriveStep;
    if g in st.drives {
      if st.drives[g].id in st.created {
        CreatedMoves(s, st, g, a);
      } else {
        StrangerMoves(s, st, g, a);
      }
      MovedOneKeeps(s, st, Next(s, st, Move(g, a)), g);
    }
  }

  lemma {:induction false} SameLocks(st: State, n: State, g: nat)
    requires LocksOk(st) && g in st.drives && n.drives.Keys == st.drives.Keys && n.inflight == st.inflight
    requires forall h :: h in n.drives ==> n.drives[h].id == st.drives[h].id
    ensures LocksOk(n)
  {
    forall x | x in n.inflight
      ensures exists h :: h in n.drives && n.drives[h].id == x
    {
      var h :| h in st.drives && st.drives[h].id == x;
      assert h in n.drives && n.drives[h].id == x;
    }
  }

  lemma {:induction false} NextKeeps(s: Setup, st: State, action: Action)
    requires Inv(s, st)
    ensures Inv(s, Next(s, st, action))
  {
    hide Inv, Next;
    match action
    case Create(branch, cmd, now, answer) => CreateKeeps(s, st, branch, cmd, now, answer);
    case Begin(g, id) => BeginKeeps(s, st, g, id);
    case Move(g, answer) => MoveKeeps(s, st, g, answer);
    case Release(g) => ReleaseKeeps(s, st, g);
    case Crash => CrashKeeps(s, st);
  }

  // Every run keeps the invariant.
  lemma {:induction false} RunKeeps(s: Setup, actions: seq<Action>)
    ensures Inv(s, Run(s, actions))
  {
    if actions != [] {
      hide Inv, Next;
      RunKeeps(s, actions[..|actions| - 1]);
      NextKeeps(s, Run(s, actions[..|actions| - 1]), actions[|actions| - 1]);
    }
  }
}
