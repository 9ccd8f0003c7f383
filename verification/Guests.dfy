/**
 Guest sign-in by device and Sign in with Apple. Racing `create_guest` calls are interleaved
 statement by statement; the unique index on (provider, subject) decides the race.
 */
module Guests {
  import opened Options
  import opened Keys

  datatype Provider = Apple | Guest | Device

  type IdentityKey = (Provider, string)

  /** `users` maps an id to `is_guest`; `identities` is unique on (provider, subject). */
  datatype Accounts = Accounts(users: map<Uuid, bool>, identities: map<IdentityKey, Uuid>)

  predicate IsGuest(a: Accounts, u: Uuid) { u in a.users && a.users[u] }

  function DeviceKey(subject: string): IdentityKey { (Guest, subject) }

  // ---- statements ----

  function Created(a: Accounts, id: Uuid, guest: bool): Accounts { a.(users := a.users[id := guest]) }

  /** `ON CONFLICT DO NOTHING`. */
  function Claimed(a: Accounts, k: IdentityKey, u: Uuid): Accounts {
    if k in a.identities then a else a.(identities := a.identities[k := u])
  }

  function SubjectOf(u: Uuid, subject: Option<string>): string {
    if subject.Some? then subject.value else "guest:" + u
  }

  /** Sign in with Apple on a new Apple id: the current guest is promoted in place. */
  function Promoted(a: Accounts, u: Uuid, sub: string): Accounts {
    Accounts(a.users[u := false], a.identities[(Apple, sub) := u])
  }

  // ---- racing calls ----

  datatype Phase =
    | Looking
    | Creating(subject: Option<string>)              // None: a synthetic subject will be used
    | Claiming(user: Uuid, subject: Option<string>)
    | Rereading(user: Uuid, taken: string)           // lost the race for the device
    | Finished(user: Uuid)

  datatype Call = Call(device: string, phase: Phase)

  datatype State = State(accounts: Accounts, calls: seq<Call>)

  datatype Step =
    | Arrive(device: string)
    | Look(call: nat)
    | Create(call: nat, id: Uuid)
    | Claim(call: nat)
    | Reread(call: nat)
    | Promote(user: Uuid, sub: string)
    | SignUp(id: Uuid, sub: string)

  function AfterLook(a: Accounts, device: string): Phase {
    if device == "" then Creating(None)
    else if DeviceKey(device) !in a.identities then Creating(Some(device))
    else if IsGuest(a, a.identities[DeviceKey(device)]) then Finished(a.identities[DeviceKey(device)])
    else Creating(None)  // the device belongs to a promoted account
  }

  function AfterClaim(a: Accounts, u: Uuid, subject: Option<string>): Phase {
    if DeviceKey(SubjectOf(u, subject)) !in a.identities || subject == None then Finished(u)
    else Rereading(u, subject.value)
  }

  function AfterReread(a: Accounts, u: Uuid, subject: string): Phase {
    if DeviceKey(subject) in a.identities && IsGuest(a, a.identities[DeviceKey(subject)])
    then Finished(a.identities[DeviceKey(subject)]) else Finished(u)
  }

  predicate Returned(s: State, u: Uuid) { exists c :: c in s.calls && c.phase == Finished(u) }

  predicate Enabled(s: State, t: Step) {
    match t
    case Arrive(_) => true
    case Look(c) => c < |s.calls| && s.calls[c].phase.Looking?
    case Create(c, id) => c < |s.calls| && s.calls[c].phase.Creating? && id !in s.accounts.users
    case Claim(c) => c < |s.calls| && s.calls[c].phase.Claiming?
    case Reread(c) => c < |s.calls| && s.calls[c].phase.Rereading?
    case Promote(u, sub) => Returned(s, u) && IsGuest(s.accounts, u) && (Apple, sub) !in s.accounts.identities
    case SignUp(id, sub) => id !in s.accounts.users && (Apple, sub) !in s.accounts.identities
  }

  function InPhase(s: State, c: nat, p: Phase): State
    requires c < |s.calls|
  {
    s.(calls := s.calls[c := s.calls[c].(phase := p)])
  }

  function Next(s: State, t: Step): State
    requires Enabled(s, t)
  {
    var a := s.accounts;
    match t
    case Arrive(device) => s.(calls := s.calls + [Call(device, Looking)])
    case Look(c) => InPhase(s, c, AfterLook(a, s.calls[c].device))
    case Create(c, id) =>
      InPhase(s.(accounts := Created(a, id, true)), c, Claiming(id, s.calls[c].phase.subject))
    case Claim(c) =>
      var p := s.calls[c].phase;
      InPhase(s.(accounts := Claimed(a, DeviceKey(SubjectOf(p.user, p.subject)), p.user)), c,
              AfterClaim(a, p.user, p.subject))
    case Reread(c) => InPhase(s, c, AfterReread(a, s.calls[c].phase.user, s.calls[c].phase.taken))
    case Promote(u, sub) => s.(accounts := Promoted(a, u, sub))
    case SignUp(id, sub) => s.(accounts := Promoted(Created(a, id, false), id, sub))
  }

  // ---- in place ----

  class AuthDatabase {
    var users: map<Uuid, bool>
    var identities: map<IdentityKey, Uuid>
    var sessions: seq<Uuid>  // owner of each session row

    function View(): Accounts
      reads this
    {
      Accounts(users, identities)
    }

    constructor ()
      ensures View() == Accounts(map[], map[]) && sessions == []
    {
      users, identities, sessions := map[], map[], [];
    }

    /** True when the identity was free. */
    method AddIdentityIfAbsent(k: IdentityKey, u: Uuid) returns (claimed: bool)
      modifies this`identities
      ensures claimed == (k !in old(identities))
      ensures users == old(users) && identities == if claimed then old(identities)[k := u] else old(identities)
      ensures View() == Claimed(old(View()), k, u)
    {
      claimed := k !in identities;
      if claimed {
        identities := identities[k := u];
      }
    }

    method CreateGuestUser(id: Uuid, subject: Option<string>) returns (u: Uuid)
      requires id !in users
      modifies this`users, this`identities
      ensures var a := Created(old(View()), id, true);
              && View() == Claimed(a, DeviceKey(SubjectOf(id, subject)), id)
              && (var p := AfterClaim(a, id, subject);
                  Finished(u) == if p.Rereading? then AfterReread(View(), id, p.taken) else p)
    {
      users := users[id := true];
      var claimed := AddIdentityIfAbsent(DeviceKey(SubjectOf(id, subject)), id);
      if claimed || subject == None {
        return id;
      }
      var k := DeviceKey(subject.value);
      if k in identities {
        var winner := identities[k];
        if winner in users && users[winner] {
          return winner;
        }
      }
      u := id;
    }

    /** One undisturbed call: the guest of the device, or a new one; with a session row. */
    method CreateGuest(device: string, id: Uuid) returns (u: Uuid)
      requires id !in users
      modifies this
      ensures IsGuest(View(), u) && sessions == old(sessions) + [u]
      ensures device == "" ==> u == id
      ensures var k := (Guest, device);
              if && device != "" && k in old(identities)
                 && old(identities)[k] in old(users) && old(users)[old(identities)[k]]
              then u == old(identities)[k] && users == old(users) && identities == old(identities)
              else
                && u == id && users == old(users)[id := true]
                && var own := if device != "" && k !in old(identities) then k else (Guest, "guest:" + id);
                   identities == if own in old(identities) then old(identities) else old(identities)[own := id]
      ensures var p := AfterLook(old(View()), device);
              if p.Finished? then View() == old(View()) && u == p.user
              else u == id && p.Creating?
                   && View() == Claimed(Created(old(View()), id, true), DeviceKey(SubjectOf(id, p.subject)), id)
    {
      var subject := None;
      if device != "" {
        var k := DeviceKey(device);
        if k in identities {
          var owner := identities[k];
          if owner in users && users[owner] {
            sessions := sessions + [owner];
            return owner;
          }
        } else {
          subject := Some(device);
        }
      }
      u := CreateGuestUser(id, subject);
      sessions := sessions + [u];
    }

    method ReassignSessions(frm: Uuid, to: Uuid)
      modifies this`sessions
      ensures |sessions| == |old(sessions)|
      ensures forall i :: 0 <= i < |sessions| ==>
        sessions[i] == if old(sessions)[i] == frm then to else old(sessions)[i]
    {
      var i := 0;
      while i < |sessions|
        invariant 0 <= i <= |sessions| == |old(sessions)|
        invariant forall k :: 0 <= k < i ==> sessions[k] == if old(sessions)[k] == frm then to else old(sessions)[k]
        invariant forall k :: i <= k < |sessions| ==> sessions[k] == old(sessions)[k]
      {
        if sessions[i] == frm {
          sessions := sessions[i := to];
        }
        i := i + 1;
      }
    }

    /**
     Sign in with Apple. `merge` names the two accounts whose data the domain reassigners must
     merge; they are never the same account, and no session of the first is left.
     */
    method SignInWithApple(sub: string, current: Option<Uuid>, id: Uuid)
      returns (u: Uuid, merge: Option<(Uuid, Uuid)>)
      requires id !in users
      modifies this
      ensures merge.Some? <==>
        (Apple, sub) in old(identities) && current.Some? && current.value != old(identities)[(Apple, sub)]
      ensures merge.Some? ==>
        && merge.value.0 == current.value && merge.value.1 == u && merge.value.0 != merge.value.1
        && merge.value.0 !in sessions && View() == old(View())
      ensures (Apple, sub) in old(identities) ==> u == old(identities)[(Apple, sub)] && View() == old(View())
      ensures (Apple, sub) !in old(identities) ==>
        if current.Some? && IsGuest(old(View()), current.value)
        then u == current.value && View() == Promoted(old(View()), u, sub)
        else u == id && View() == Promoted(Created(old(View()), id, false), id, sub)
      ensures |sessions| == |old(sessions)| + 1 && sessions[|old(sessions)|] == u
      ensures (Apple, sub) !in old(identities) ==>
        users == old(users)[u := false] && identities == old(identities)[(Apple, sub) := u]
    {
      merge := None;
      var k := (Apple, sub);
      if k in identities {
        u := identities[k];
        if current.Some? && current.value != u {
          ReassignSessions(current.value, u);
          merge := Some((current.value, u));
        }
      } else {
        if current.Some? && current.value in users && users[current.value] {
          u := current.value;
        } else {
          u := id;
          users := users[id := false];
        }
        users := users[u := false];
        identities := identities[k := u];
      }
      sessions := sessions + [u];
    }
  }

  // ---- all interleavings ----

  predicate InFlight(p: Phase) { p.Claiming? || p.Rereading? }

  ghost predicate HasIdentity(a: Accounts, u: Uuid) { exists k :: k in a.identities && a.identities[k] == u }

  /** A call's own new user is a guest nobody else can reach yet. */
  ghost predicate OwnUsersPrivate(s: State) {
    forall i :: 0 <= i < |s.calls| && InFlight(s.calls[i].phase) ==>
      var u := s.calls[i].phase.user;
      && IsGuest(s.accounts, u) && !HasIdentity(s.accounts, u) && !Returned(s, u)
      && forall j :: 0 <= j < |s.calls| && j != i && InFlight(s.calls[j].phase) ==> s.calls[j].phase.user != u
  }

  ghost predicate KnownUsers(s: State) {
    (forall k :: k in s.accounts.identities ==> s.accounts.identities[k] in s.accounts.users)
    && (forall c :: c in s.calls && c.phase.Finished? ==> c.phase.user in s.accounts.users)
  }

  ghost predicate Inv(s: State) { OwnUsersPrivate(s) && KnownUsers(s) }

  /** Returning a user who is nobody's private user keeps the others private. */
  lemma FinishKeepsInv(s: State, c: nat, u: Uuid)
    requires Inv(s) && c < |s.calls| && u in s.accounts.users
    requires forall j :: 0 <= j < |s.calls| && j != c && InFlight(s.calls[j].phase) ==> s.calls[j].phase.user != u
    ensures Inv(InPhase(s, c, Finished(u)))
  {
    var t := InPhase(s, c, Finished(u));
    forall v | Returned(t, v) ensures v == u || Returned(s, v) {
      var x :| x in t.calls && x.phase == Finished(v);
      assert x in s.calls || x == t.calls[c];
    }
    assert forall i :: 0 <= i < |t.calls| && InFlight(t.calls[i].phase) ==> s.calls[i] == t.calls[i];
    forall x | x in t.calls && x.phase.Finished? ensures x.phase.user in t.accounts.users {
      assert x in s.calls || x == t.calls[c];
    }
  }

  /** Moving a call between phases that return nobody and own nobody new. */
  lemma QuietPhaseKeepsInv(s: State, c: nat, p: Phase)
    requires Inv(s) && c < |s.calls| && !p.Finished? && !s.calls[c].phase.Finished?
    requires InFlight(p) ==> InFlight(s.calls[c].phase) && p.user == s.calls[c].phase.user
    ensures Inv(InPhase(s, c, p))
  {
    var t := InPhase(s, c, p);
    SameReturns(s, c, p);
  }

  lemma SameReturns(s: State, c: nat, p: Phase)
    requires c < |s.calls| && !p.Finished? && !s.calls[c].phase.Finished?
    ensures forall u :: Returned(InPhase(s, c, p), u) <==> Returned(s, u)
  {
    var t := InPhase(s, c, p);
    forall u ensures Returned(t, u) <==> Returned(s, u) {
      if x :| x in t.calls && x.phase == Finished(u) {
        var i :| 0 <= i < |t.calls| && t.calls[i] == x;
        assert s.calls[i] == x;
      }
      if x :| x in s.calls && x.phase == Finished(u) {
        var i :| 0 <= i < |s.calls| && s.calls[i] == x;
        assert t.calls[i] == x;
      }
    }
  }

  lemma ArriveKeepsInv(s: State, device: string)
    requires Inv(s)
    ensures Inv(s.(calls := s.calls + [Call(device, Looking)]))
  {
    var t := s.(calls := s.calls + [Call(device, Looking)]);
    assert forall x :: x in t.calls <==> x in s.calls || x == Call(device, Looking);
    assert forall u :: Returned(t, u) <==> Returned(s, u);
  }

  lemma LookKeepsInv(s: State, c: nat)
    requires Inv(s) && Enabled(s, Look(c))
    ensures Inv(Next(s, Look(c)))
  {
    var p := AfterLook(s.accounts, s.calls[c].device);
    if p.Finished? {
      assert HasIdentity(s.accounts, p.user);
      FinishKeepsInv(s, c, p.user);
    } else {
      QuietPhaseKeepsInv(s, c, p);
    }
  }

  lemma CreateKeepsInv(s: State, c: nat, id: Uuid)
    requires Inv(s) && Enabled(s, Create(c, id))
    ensures Inv(Next(s, Create(c, id)))
  {
    var t := Next(s, Create(c, id));
    SameReturns(s, c, t.calls[c].phase);
    assert t.accounts.identities == s.accounts.identities;
    assert !Returned(s, id) && !HasIdentity(s.accounts, id);
    forall u ensures HasIdentity(t.accounts, u) == HasIdentity(s.accounts, u) {}
    forall i | 0 <= i < |t.calls| && InFlight(t.calls[i].phase) && i != c
      ensures s.calls[i] == t.calls[i] && t.calls[i].phase.user != id {}
  }

  lemma ClaimKeepsInv(s: State, c: nat)
    requires Inv(s) && Enabled(s, Claim(c))
    ensures Inv(Next(s, Claim(c)))
  {
    var p := s.calls[c].phase;
    var k := DeviceKey(SubjectOf(p.user, p.subject));
    var after := AfterClaim(s.accounts, p.user, p.subject);
    if after.Rereading? {
      QuietPhaseKeepsInv(s, c, after);
    } else {
      FinishKeepsInv(s, c, p.user);
      var mid := InPhase(s, c, after);
      var t := Next(s, Claim(c));
      if k !in s.accounts.identities {
        forall u | u != p.user ensures HasIdentity(t.accounts, u) ==> HasIdentity(mid.accounts, u) {
          if x :| x in t.accounts.identities && t.accounts.identities[x] == u {
            assert x in mid.accounts.identities;
          }
        }
        assert t.calls == mid.calls;
        forall i | 0 <= i < |t.calls| && InFlight(t.calls[i].phase) ensures t.calls[i].phase.user != p.user {
          assert i != c && s.calls[i] == t.calls[i];
        }
        assert forall u :: Returned(t, u) == Returned(mid, u);
      }
    }
  }

  lemma RereadKeepsInv(s: State, c: nat)
    requires Inv(s) && Enabled(s, Reread(c))
    ensures Inv(Next(s, Reread(c)))
  {
    var p := s.calls[c].phase;
    var after := AfterReread(s.accounts, p.user, p.taken);
    if after.user != p.user {
      assert HasIdentity(s.accounts, after.user);
    }
    FinishKeepsInv(s, c, after.user);
  }

  /** Only an account that has been returned to someone can be promoted. */
  lemma PromotedKeepsInv(s: State, u: Uuid, sub: string)
    requires Inv(s) && u in s.accounts.users
    requires forall i :: 0 <= i < |s.calls| && InFlight(s.calls[i].phase) ==> s.calls[i].phase.user != u
    ensures Inv(s.(accounts := Promoted(s.accounts, u, sub)))
  {
    var t := s.(accounts := Promoted(s.accounts, u, sub));
    forall v | v != u ensures HasIdentity(t.accounts, v) ==> HasIdentity(s.accounts, v) {
      if x :| x in t.accounts.identities && t.accounts.identities[x] == v {
        assert x in s.accounts.identities && s.accounts.identities[x] == v;
      }
    }
    assert forall v :: Returned(t, v) == Returned(s, v);
  }

  lemma SignUpKeepsInv(s: State, id: Uuid, sub: string)
    requires Inv(s) && Enabled(s, SignUp(id, sub))
    ensures Inv(Next(s, SignUp(id, sub)))
  {
    var mid := s.(accounts := Created(s.accounts, id, false));
    assert forall v :: Returned(mid, v) == Returned(s, v);
    assert forall v :: HasIdentity(mid.accounts, v) == HasIdentity(s.accounts, v);
    PromotedKeepsInv(mid, id, sub);
  }

  lemma StepKeepsInv(s: State, t: Step)
    requires Inv(s) && Enabled(s, t)
    ensures Inv(Next(s, t))
  {
    match t
    case Arrive(device) => ArriveKeepsInv(s, device);
    case Look(c) => LookKeepsInv(s, c);
    case Create(c, id) => CreateKeepsInv(s, c, id);
    case Claim(c) => ClaimKeepsInv(s, c);
    case Reread(c) => RereadKeepsInv(s, c);
    case Promote(u, sub) => PromotedKeepsInv(s, u, sub);
    case SignUp(id, sub) => SignUpKeepsInv(s, id, sub);
  }

  /** Promotion binds the Apple id to the account and ends its being a guest; no other account changes. */
  lemma PromotionEndsGuest(s: State, u: Uuid, sub: string, v: Uuid)
    requires Enabled(s, Promote(u, sub))
    ensures var a := Next(s, Promote(u, sub)).accounts;
            && u in a.users && !IsGuest(a, u) && (Apple, sub) in a.identities && a.identities[(Apple, sub)] == u
            && (v != u ==> IsGuest(a, v) == IsGuest(s.accounts, v))
  {
  }

  /** Whoever a call is finished with is a guest at that moment: a promoted account is never returned. */
  lemma ReturnedUserIsGuest(s: State, t: Step, c: nat)
    requires Inv(s) && Enabled(s, t) && c < |s.calls|
    requires !s.calls[c].phase.Finished? && Next(s, t).calls[c].phase.Finished?
    ensures IsGuest(Next(s, t).accounts, Next(s, t).calls[c].phase.user)
  {
  }

  /** An identity never changes its owner. */
  lemma IdentityKeepsOwner(s: State, t: Step, k: IdentityKey)
    requires Enabled(s, t) && k in s.accounts.identities
    ensures k in Next(s, t).accounts.identities
    ensures Next(s, t).accounts.identities[k] == s.accounts.identities[k]
  {
  }

  // ---- runs ----

  ghost predicate EnabledRun(s: State, ts: seq<Step>)
    decreases |ts|
  {
    ts == [] || (Enabled(s, ts[0]) && EnabledRun(Next(s, ts[0]), ts[1..]))
  }

  function Run(s: State, ts: seq<Step>): State
    requires EnabledRun(s, ts)
    decreases |ts|
  {
    if ts == [] then s else Run(Next(s, ts[0]), ts[1..])
  }

  lemma {:induction false} RunKeepsInvAndOwners(s: State, ts: seq<Step>, k: IdentityKey)
    requires Inv(s) && EnabledRun(s, ts)
    ensures Inv(Run(s, ts))
    ensures k in s.accounts.identities ==>
      k in Run(s, ts).accounts.identities && Run(s, ts).accounts.identities[k] == s.accounts.identities[k]
    decreases |ts|
  {
    if ts != [] {
      StepKeepsInv(s, ts[0]);
      if k in s.accounts.identities { IdentityKeepsOwner(s, ts[0], k); }
      RunKeepsInvAndOwners(Next(s, ts[0]), ts[1..], k);
    }
  }

  // ---- the race for one device ----

  /** While nobody is promoted, a call of device `d` only ever uses `d` as its subject. */
  ghost predicate RaceFor(a: Accounts, d: string, p: Phase) {
    match p
    case Looking => true
    case Creating(subject) => subject == Some(d)
    case Claiming(_, subject) => subject == Some(d)
    case Rereading(_, taken) => taken == d && DeviceKey(d) in a.identities
    case Finished(u) => DeviceKey(d) in a.identities && a.identities[DeviceKey(d)] == u
  }

  ghost predicate Racing(s: State, d: string) {
    && (DeviceKey(d) in s.accounts.identities ==> IsGuest(s.accounts, s.accounts.identities[DeviceKey(d)]))
    && forall c :: c in s.calls && c.device == d ==> RaceFor(s.accounts, d, c.phase)
  }

  /** The step does not promote the owner of the device. */
  predicate SparesOwner(s: State, t: Step, d: string) {
    t.Promote? && DeviceKey(d) in s.accounts.identities ==> s.accounts.identities[DeviceKey(d)] != t.user
  }

  ghost predicate SparesOwnerThroughout(s: State, ts: seq<Step>, d: string)
    requires EnabledRun(s, ts)
    decreases |ts|
  {
    ts == [] || (SparesOwner(s, ts[0], d) && SparesOwnerThroughout(Next(s, ts[0]), ts[1..], d))
  }

  lemma StepKeepsRacing(s: State, t: Step, d: string)
    requires Inv(s) && Racing(s, d) && Enabled(s, t) && SparesOwner(s, t, d) && d != ""
    ensures Racing(Next(s, t), d)
  {
    var n := Next(s, t);
    if DeviceKey(d) in s.accounts.identities { IdentityKeepsOwner(s, t, DeviceKey(d)); }
    forall c | c in n.calls && c.device == d && c !in s.calls ensures RaceFor(n.accounts, d, c.phase) {}
  }

  lemma {:induction false} RunKeepsRacing(s: State, ts: seq<Step>, d: string)
    requires Inv(s) && Racing(s, d) && EnabledRun(s, ts) && SparesOwnerThroughout(s, ts, d) && d != ""
    ensures Racing(Run(s, ts), d)
    decreases |ts|
  {
    if ts != [] {
      StepKeepsInv(s, ts[0]);
      StepKeepsRacing(s, ts[0], d);
      RunKeepsRacing(Next(s, ts[0]), ts[1..], d);
    }
  }

  /**
   Any number of racing `create_guest` calls of one device, interleaved with anything but a
   promotion of the device's owner, are answered with the same user: the owner of the device's identity.
   */
  lemma RacingCallsAgree(s: State, ts: seq<Step>, d: string, i: nat, j: nat)
    requires Inv(s) && EnabledRun(s, ts) && SparesOwnerThroughout(s, ts, d) && d != ""
    requires forall c :: c in s.calls ==> c.device != d
    requires DeviceKey(d) in s.accounts.identities ==> IsGuest(s.accounts, s.accounts.identities[DeviceKey(d)])
    requires i < |Run(s, ts).calls| && j < |Run(s, ts).calls|
    ensures var r := Run(s, ts);
            && r.calls[i].device == d && r.calls[j].device == d
            && r.calls[i].phase.Finished? && r.calls[j].phase.Finished? ==>
              && r.calls[i].phase == r.calls[j].phase
              && DeviceKey(d) in r.accounts.identities
              && r.accounts.identities[DeviceKey(d)] == r.calls[i].phase.user
              && IsGuest(r.accounts, r.calls[i].phase.user)
  {
    RunKeepsRacing(s, ts, d);
    assert Run(s, ts).calls[i] in Run(s, ts).calls && Run(s, ts).calls[j] in Run(s, ts).calls;
  }

  // ---- a promoted device ----

  /** A call that works on a user of its own. */
  ghost predicate OnItsOwn(p: Phase, known: set<Uuid>) {
    match p
    case Looking => true
    case Creating(subject) => subject == None
    case Claiming(u, subject) => subject == None && u !in known
    case Rereading(_, _) => false
    case Finished(u) => u !in known
  }

  ghost predicate OwnCalls(s: State, d: string, known: set<Uuid>) {
    && known <= s.accounts.users.Keys
    && forall c :: c in s.calls && c.device == d ==> OnItsOwn(c.phase, known)
  }

  ghost predicate DeviceIsPromoted(a: Accounts, d: string, p: Uuid) {
    && DeviceKey(d) in a.identities && a.identities[DeviceKey(d)] == p
    && p in a.users && !IsGuest(a, p)
  }

  /** Nobody can be found by that device: none was sent, or it belongs to a promoted account. */
  ghost predicate FindsNobody(a: Accounts, d: string) {
    d == "" || exists p :: DeviceIsPromoted(a, d, p)
  }

  ghost predicate DistinctAnswers(s: State, d: string) {
    forall i, j :: 0 <= i < j < |s.calls| && s.calls[i].device == d && s.calls[j].device == d ==>
      (s.calls[i].phase.Finished? ==> s.calls[i].phase != s.calls[j].phase)
  }

  lemma StepKeepsPromoted(s: State, t: Step, d: string, p: Uuid)
    requires Inv(s) && DeviceIsPromoted(s.accounts, d, p) && Enabled(s, t)
    ensures DeviceIsPromoted(Next(s, t).accounts, d, p)
  {
    IdentityKeepsOwner(s, t, DeviceKey(d));
  }

  lemma StepFindsNobody(s: State, t: Step, d: string)
    requires Inv(s) && FindsNobody(s.accounts, d) && Enabled(s, t)
    ensures FindsNobody(Next(s, t).accounts, d)
  {
    if d != "" {
      var p :| DeviceIsPromoted(s.accounts, d, p);
      StepKeepsPromoted(s, t, d, p);
    }
  }

  lemma StepKeepsOwnCalls(s: State, t: Step, d: string, known: set<Uuid>)
    requires Inv(s) && FindsNobody(s.accounts, d) && OwnCalls(s, d, known) && Enabled(s, t)
    ensures OwnCalls(Next(s, t), d, known)
  {
    var n := Next(s, t);
    forall c | c in n.calls && c.device == d ensures OnItsOwn(c.phase, known) {
      if c !in s.calls && !t.Arrive? {
        var i :| 0 <= i < |n.calls| && n.calls[i] == c;
        assert s.calls[i] in s.calls;
      }
    }
  }

  /** Only a claim finishes such a call, with a user nobody has been answered yet. */
  lemma StepKeepsAnswersDistinct(s: State, t: Step, d: string, known: set<Uuid>)
    requires Inv(s) && FindsNobody(s.accounts, d) && OwnCalls(s, d, known) && DistinctAnswers(s, d) && Enabled(s, t)
    ensures DistinctAnswers(Next(s, t), d)
  {
    var n := Next(s, t);
    forall i, j | 0 <= i < j < |n.calls| && n.calls[i].device == d && n.calls[j].device == d
                  && n.calls[i].phase.Finished?
      ensures n.calls[i].phase != n.calls[j].phase
    {
      if j < |s.calls| {
        assert s.calls[i] in s.calls && s.calls[j] in s.calls;
        if t.Claim? && (t.call == i || t.call == j) {
          assert !Returned(s, s.calls[t.call].phase.user);
        }
      }
    }
  }

  lemma {:induction false} RunKeepsOwnCalls(s: State, ts: seq<Step>, d: string, known: set<Uuid>)
    requires Inv(s) && FindsNobody(s.accounts, d) && OwnCalls(s, d, known) && DistinctAnswers(s, d) && EnabledRun(s, ts)
    ensures OwnCalls(Run(s, ts), d, known) && DistinctAnswers(Run(s, ts), d)
    decreases |ts|
  {
    if ts != [] {
      StepKeepsInv(s, ts[0]);
      StepFindsNobody(s, ts[0], d);
      StepKeepsOwnCalls(s, ts[0], d, known);
      StepKeepsAnswersDistinct(s, ts[0], d, known);
      RunKeepsOwnCalls(Next(s, ts[0]), ts[1..], d, known);
    }
  }

  lemma {:induction false} RunKeepsPromoted(s: State, ts: seq<Step>, d: string, p: Uuid)
    requires Inv(s) && DeviceIsPromoted(s.accounts, d, p) && EnabledRun(s, ts)
    ensures DeviceIsPromoted(Run(s, ts).accounts, d, p)
    decreases |ts|
  {
    if ts != [] {
      StepKeepsInv(s, ts[0]);
      StepKeepsPromoted(s, ts[0], d, p);
      RunKeepsPromoted(Next(s, ts[0]), ts[1..], d, p);
    }
  }

  /**
   Once a device belongs to a promoted account, each of its later calls, however they race, ends
   with an account of its own that did not exist before; the device stays with the promoted one,
   which is never returned.
   */
  lemma PromotedDeviceGetsNewGuests(s: State, ts: seq<Step>, d: string, i: nat, j: nat)
    requires Inv(s) && EnabledRun(s, ts) && d != "" && DeviceKey(d) in s.accounts.identities
    requires !IsGuest(s.accounts, s.accounts.identities[DeviceKey(d)])
    requires forall c :: c in s.calls ==> c.device != d
    requires i < |Run(s, ts).calls| && j < |Run(s, ts).calls| && i != j
    requires Run(s, ts).calls[i].device == d && Run(s, ts).calls[i].phase.Finished?
    ensures var r := Run(s, ts);
            && r.calls[i].phase.user !in s.accounts.users
            && (r.calls[j].device == d && r.calls[j].phase.Finished? ==> r.calls[i].phase.user != r.calls[j].phase.user)
            && DeviceKey(d) in r.accounts.identities
            && r.accounts.identities[DeviceKey(d)] == s.accounts.identities[DeviceKey(d)]
            && !IsGuest(r.accounts, r.accounts.identities[DeviceKey(d)])
  {
    var p := s.accounts.identities[DeviceKey(d)];
    assert DeviceIsPromoted(s.accounts, d, p);
    RunKeepsOwnCalls(s, ts, d, s.accounts.users.Keys);
    RunKeepsPromoted(s, ts, d, p);
    assert Run(s, ts).calls[i] in Run(s, ts).calls;
  }

  /** Callers who send no device share nothing: each gets a new account, different from every other's. */
  lemma CallersWithoutDeviceAreStrangers(s: State, ts: seq<Step>, i: nat, j: nat)
    requires Inv(s) && EnabledRun(s, ts) && forall c :: c in s.calls ==> c.device != ""
    requires i < |Run(s, ts).calls| && j < |Run(s, ts).calls| && i != j
    requires Run(s, ts).calls[i].device == "" && Run(s, ts).calls[i].phase.Finished?
    ensures var r := Run(s, ts);
            && r.calls[i].phase.user !in s.accounts.users
            && (r.calls[j].device == "" && r.calls[j].phase.Finished? ==>
                  r.calls[i].phase.user != r.calls[j].phase.user)
  {
    RunKeepsOwnCalls(s, ts, "", s.accounts.users.Keys);
    assert Run(s, ts).calls[i] in Run(s, ts).calls;
  }
}
