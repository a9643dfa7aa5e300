/**
 What each command does to a group of connections over one provider, on values, and what
 follows for whole runs.
 */
module Effects {
  import opened Common
  import opened Fabric
  import opened Ownership
  import opened Setup
  import opened Families

  datatype Command =
    | Create(isServer: bool)
    | Connect(i: nat)
    | Accept(i: nat)
    | MoveConstruct(i: nat)
    | MoveAssign(i: nat, j: nat)
    | Destroy(i: nat)
    | Register(i: nat, key: nat)

  /** The fields of a connection. */
  datatype Member = Member(isServer: bool, failed: bool, conn: Conn)

  /** The provider's objects and the answers still to come, the connections, the origin of what
      each of them holds, and the next free number. */
  datatype Snapshot = Snapshot(objs: Objects, answers: seq<bool>, members: seq<Member>, who: seq<Origin>, next: nat)

  /** The connections that a command names exist; otherwise it is skipped. */
  predicate Exists(c: Command, n: nat) {
    !c.Create? ==> c.i < n && (c.MoveAssign? ==> c.j < n)
  }

  predicate NoHandles(c: Conn) {
    c.domain.None? && c.ep.None? && c.rxCq.None? && c.txCq.None?
  }

  /** What a careful caller checks: a server connects or accepts only when no handle would
      be overwritten, and a connection is destroyed or overwritten only when it has no
      accepted children left. */
  predicate CarefulIn(members: seq<Member>, who: seq<Origin>, c: Command)
    requires |who| == |members|
  {
    Exists(c, |members|) ==>
      match c
      case Connect(i) => members[i].isServer ==> members[i].conn.pep.None? && NoHandles(members[i].conn)
      case Accept(i) => members[i].isServer ==> NoHandles(members[i].conn)
      case MoveAssign(i, j) => i != j ==> !HasChild(who, i)
      case Destroy(i) => !HasChild(who, i)
      case _ => true
  }

  // ------------------------------------------------------------------------ one command

  /** When a command ends the process, by the answers to come and the objects there are.  A
      registration can end it also because the provider refuses the region or its key. */
  ghost predicate Fatal(c: Command, s: Snapshot) {
    match c
    case Create(isServer) => !Granted(s.answers, if isServer then 2 else 10)
    case Connect(i) =>
      i < |s.members| && ConnectFatal(s.members[i].isServer, s.members[i].failed, s.members[i].conn, s.answers)
    case Accept(i) => i < |s.members| && s.members[i].isServer && AcceptDies(s.members[i].conn, s.answers)
    case MoveConstruct(_) => false
    case MoveAssign(_, _) => false
    case Destroy(i) => i < |s.members| && Entangled(s.objs, Held(s.members[i].conn))
    case Register(i, _) => i < |s.members| && (s.members[i].conn.mrs.None? || s.members[i].conn.domain.None?)
  }

  /** A new connection, and nothing else changed. */
  ghost predicate CreateEffect(isServer: bool, s: Snapshot, s': Snapshot) {
    s'.members != [] &&
    var m := s'.members[|s'.members| - 1];
    && m == Member(isServer, false, m.conn)
    && Created(isServer, s.objs, s.answers, s'.objs, m.conn, s'.answers) && Local(s.objs, s'.objs, {}, Held(m.conn))
    && s'.members == s.members + [m] && s'.who == s.who + [Origin(s.next, None)] && s'.next == s.next + 1
  }

  ghost predicate ConnectEffect(i: nat, s: Snapshot, s': Snapshot)
    requires i < |s.members|
  {
    i < |s'.members| &&
    var m, m' := s.members[i], s'.members[i];
    && (exists r :: Connected(m.isServer, s.objs, m.conn, s.answers, s'.objs, m'.conn, m'.failed, s'.answers, r))
    && Local(s.objs, s'.objs, Held(m.conn), Held(m'.conn))
    && m'.isServer == m.isServer
    && s'.members == s.members[i := m'] && s'.who == s.who && s'.next == s.next
  }

  /** One more connection, with a new endpoint if the server got as far as that. */
  ghost predicate AcceptEffect(i: nat, s: Snapshot, s': Snapshot)
    requires i < |s.members| && i < |s.who|
  {
    |s'.members| == |s.members| + 1 &&
    var m, m', w := s.members[i], s'.members[i], s'.members[|s.members|].conn;
    && (exists r :: Accepted(m.isServer, s.objs, m.conn, s.answers, s'.objs, m'.conn, s'.answers, r, w))
    && m' == Member(m.isServer, m.failed, m'.conn)
    && s'.members == s.members[i := m'] + [Member(false, false, w)]
    && s'.who == s.who + [Origin(s.next, Some(s.who[i].id))] && s'.next == s.next + 1
  }

  /** One more connection, with all that the source had; what it holds keeps its origin. */
  predicate MoveConstructEffect(i: nat, s: Snapshot, s': Snapshot)
    requires i < |s.members| && i < |s.who|
  {
    var m := s.members[i];
    && s'.objs == s.objs && s'.answers == s.answers
    && s'.members == s.members[i := m.(conn := MOVED_CONN)] + [m.(failed := false)]
    && s'.who == s.who[i := Origin(s.next, None)] + [s.who[i]] && s'.next == s.next + 1
  }

  function Assigned(members: seq<Member>, i: nat, j: nat): seq<Member>
    requires i < |members| && j < |members|
  {
    var m, x := members[i], members[j];
    members[i := Member(x.isServer, m.failed, x.conn)][j := x.(conn := MOVED_CONN)]
  }

  /** The target closes what nobody needs and takes all that the source had. */
  predicate MoveAssignEffect(i: nat, j: nat, s: Snapshot, s': Snapshot)
    requires i < |s.members| && j < |s.members| && |s.who| == |s.members|
  {
    if i == j then s' == s
    else
      && ClosedWhatItCould(s.objs, Held(s.members[i].conn), s'.objs) && s'.answers == s.answers
      && s'.members == Assigned(s.members, i, j)
      && s'.who == s.who[i := s.who[j]][j := Origin(s.next, None)] && s'.next == s.next + 1
  }

  /** One connection less, and all its objects closed. */
  predicate DestroyEffect(i: nat, s: Snapshot, s': Snapshot)
    requires i < |s.members| && i < |s.who|
  {
    && s'.objs == CloseSet(s.objs, Held(s.members[i].conn)) && s'.answers == s.answers
    && s'.members == Without(s.members, i) && s'.who == Without(s.who, i) && s'.next == s.next
  }

  ghost predicate RegisterEffect(i: nat, key: nat, s: Snapshot, s': Snapshot)
    requires i < |s.members|
  {
    i < |s'.members| &&
    var m, m' := s.members[i], s'.members[i];
    && (exists newKey :: Registered(key, s.objs, m.conn, s'.objs, m'.conn, newKey))
    && m' == m.(conn := m'.conn) && s'.answers == s.answers
    && s'.members == s.members[i := m'] && s'.who == s.who && s'.next == s.next
  }

  ghost predicate Does(c: Command, s: Snapshot, s': Snapshot)
    requires |s.who| == |s.members| && Exists(c, |s.members|)
  {
    match c
    case Create(isServer) => CreateEffect(isServer, s, s')
    case Connect(i) => ConnectEffect(i, s, s')
    case Accept(i) => AcceptEffect(i, s, s')
    case MoveConstruct(i) => MoveConstructEffect(i, s, s')
    case MoveAssign(i, j) => MoveAssignEffect(i, j, s, s')
    case Destroy(i) => DestroyEffect(i, s, s')
    case Register(i, key) => RegisterEffect(i, key, s, s')
  }

  lemma {:induction false} DoesAccept(i: nat, s: Snapshot, s': Snapshot)
    requires i < |s.members| == |s.who| && AcceptEffect(i, s, s')
    ensures Does(Accept(i), s, s')
  {
  }

  lemma {:induction false} DoesAssign(i: nat, j: nat, s: Snapshot, s': Snapshot)
    requires i < |s.members| == |s.who| && j < |s.members| && (i == j ==> s' == s)
    requires i == j || MoveAssignEffect(i, j, s, s')
    ensures Does(MoveAssign(i, j), s, s')
  {
  }

  lemma {:induction false} DoesRegister(i: nat, key: nat, s: Snapshot, s': Snapshot)
    requires i < |s.members| == |s.who| && RegisterEffect(i, key, s, s')
    ensures Does(Register(i, key), s, s')
  {
  }

  /** What a command does if it does not end the process; commands for connections that do not
      exist are skipped. */
  ghost predicate Effect(c: Command, s: Snapshot, s': Snapshot) {
    |s.who| == |s.members| && if Exists(c, |s.members|) then !Fatal(c, s) && Does(c, s, s') else s' == s
  }

  // ------------------------------------------------------------------------- whole runs

  /** In a run that is to be careful, careless commands are left out. */
  ghost predicate Obeys(c: Command, s: Snapshot, s': Snapshot, careful: bool) {
    |s.who| == |s.members| &&
    if careful && !CarefulIn(s.members, s.who, c) then s' == s else Effect(c, s, s')
  }

  /** The command ended the process.  An assignment never does, nor a careful destruction. */
  ghost predicate Ends(c: Command, s: Snapshot, careful: bool) {
    && |s.who| == |s.members| && Exists(c, |s.members|) && (c.Register? || Fatal(c, s))
    && (careful ==> CarefulIn(s.members, s.who, c) && !c.Destroy?)
  }

  /** The snapshots between the commands of a script, or of the part of it before a command
      that ended the process. */
  ghost predicate Trace(script: seq<Command>, trace: seq<Snapshot>, answers: seq<bool>, careful: bool) {
    && 0 < |trace| <= |script| + 1 && trace[0] == Snapshot([], answers, [], [], 0)
    && forall k :: 0 <= k < |trace| - 1 ==> Obeys(script[k], trace[k], trace[k + 1], careful)
  }

  lemma {:induction false} TraceGrows(script: seq<Command>, trace: seq<Snapshot>, answers: seq<bool>, careful: bool,
      s': Snapshot)
    requires Trace(script, trace, answers, careful) && |trace| <= |script|
    requires Obeys(script[|trace| - 1], trace[|trace| - 1], s', careful)
    ensures Trace(script, trace + [s'], answers, careful)
  {
  }

  // ------------------------------------------------------------------- what follows from it

  /** accept on a server that serves the request, all of whose calls succeed: one connection
      more, which has an endpoint with its own domain and queues, bound to the server's event
      queue; the server listens and has no endpoint. */
  lemma {:induction false} AcceptServes(i: nat, s: Snapshot, s': Snapshot)
    requires Effect(Accept(i), s, s') && i < |s.members| && s.members[i].isServer
    requires Granted(s.answers, PepAnswers(s.members[i].conn) + 11)
    ensures |s'.members| == |s.members| + 1 && s'.members[|s.members|] != s'.members[i]
    ensures var v, w := s'.members[i].conn, s'.members[|s.members|].conn;
            && v.pep.Some? && v.eq.Some? && NoHandles(v)
            && w.ep.Some? && w.domain.Some? && w.rxCq.Some? && w.txCq.Some? && w.ep.value < |s'.objs|
            && {w.domain.value, w.rxCq.value, w.txCq.value, v.eq.value} <= s'.objs[w.ep.value].deps
    ensures s'.answers == Skip(s.answers, PepAnswers(s.members[i].conn) + 11)
  {
    var m, k := s.members[i], PepAnswers(s.members[i].conn);
    var v, w := s'.members[i].conn, s'.members[|s.members|].conn;
    var r :| Accepted(m.isServer, s.objs, m.conn, s.answers, s'.objs, v, s'.answers, r, w);
    assert Answer(s.answers, k) && Answer(s.answers, k + 9);
    GrantedSplits(s.answers, k + 1, 10);
    GrantedSplits(Skip(s.answers, k + 1), 8, 2);
    EquippedFully(s.objs, m.conn, s'.objs, Whole(v, w), Skip(s.answers, k + 1));
  }

  /** A server that accepts one request, with a provider that grants everything: the run is
      not cut short, and leaves the listening server and a connection with an endpoint. */
  lemma {:induction false} FirstAccept(trace: seq<Snapshot>, careful: bool)
    requires Trace([Create(true), Accept(0)], trace, [], careful)
    ensures |trace| < 3 ==> !Ends([Create(true), Accept(0)][|trace| - 1], trace[|trace| - 1], careful)
    ensures |trace| == 3 ==>
              && |trace[2].members| == 2 && trace[2].members[0].conn.pep.Some? && NoHandles(trace[2].members[0].conn)
              && trace[2].members[1].conn.ep.Some? && !trace[2].members[1].isServer
  {
    var script := [Create(true), Accept(0)];
    if |trace| > 1 {
      assert Obeys(script[0], trace[0], trace[1], careful);
      var m := trace[1].members[0];
      assert m.isServer && m.conn.fab.Some? && m.conn.eq.Some? && NoHandles(m.conn) && trace[1].answers == [];
      AcceptSurvives(m.conn, []);
      if |trace| > 2 {
        assert Obeys(script[1], trace[1], trace[2], careful);
        AcceptServes(0, trace[1], trace[2]);
      }
    }
  }

  /** How a command changes the number of connections. */
  function Grown(c: Command, n: nat): nat {
    if !Exists(c, n) then n
    else match c
      case Create(_) => n + 1
      case Connect(_) => n
      case Accept(_) => n + 1
      case MoveConstruct(_) => n + 1
      case MoveAssign(_, _) => n
      case Destroy(_) => n - 1
      case Register(_, _) => n
  }

  function Population(script: seq<Command>): nat
    decreases |script|
  {
    if script == [] then 0 else Grown(script[|script| - 1], Population(script[..|script| - 1]))
  }

  /** The number of connections follows from the script alone. */
  lemma {:induction false} PopulationFollows(script: seq<Command>, trace: seq<Snapshot>, answers: seq<bool>, k: nat)
    requires Trace(script, trace, answers, false) && k < |trace|
    ensures |trace[k].members| == Population(script[..k])
    decreases k
  {
    if k > 0 {
      PopulationFollows(script, trace, answers, k - 1);
      assert Obeys(script[k - 1], trace[k - 1], trace[k], false);
      assert script[..k][..k - 1] == script[..k - 1];
    }
  }

  /** The same fields have a handle. */
  predicate SameHandles(c: Conn, d: Conn) {
    && c.fab.Some? == d.fab.Some? && c.domain.Some? == d.domain.Some? && c.pep.Some? == d.pep.Some?
    && c.eq.Some? == d.eq.Some? && c.ep.Some? == d.ep.Some? && c.rxCq.Some? == d.rxCq.Some?
    && c.txCq.Some? == d.txCq.Some? && c.mrs.Some? == d.mrs.Some?
  }

  predicate Alike(m: Member, n: Member) {
    m.isServer == n.isServer && m.failed == n.failed && SameHandles(m.conn, n.conn)
  }

  /** The same connections with the same handles and origins, and the same answers to come. */
  predicate SameShape(s: Snapshot, t: Snapshot) {
    && s.answers == t.answers && s.who == t.who && s.next == t.next && |s.members| == |t.members|
    && forall i :: 0 <= i < |s.members| ==> Alike(s.members[i], t.members[i])
  }

  lemma {:induction false} ConnectAlike(i: nat, s: Snapshot, s': Snapshot, t: Snapshot, t': Snapshot)
    requires Effect(Connect(i), s, s') && Effect(Connect(i), t, t') && SameShape(s, t)
    ensures SameShape(s', t')
  {
    if i < |s.members| {
      assert Alike(s.members[i], t.members[i]);
      assert Alike(s'.members[i], t'.members[i]);
    }
  }

  /** Which handles a server in state v has after accept, as a connection with dummy handles. */
  function LeftByAccept(v: Conn, answers: seq<bool>): Conn {
    if Serves(v, answers) then v.(pep := Some(0), domain := None, ep := None, rxCq := None, txCq := None)
    else if Answer(answers, PepAnswers(v)) then
      v.(pep := Some(0), domain := Some(0), ep := Some(0), rxCq := Some(0), txCq := Some(0))
    else v.(pep := Some(0))
  }

  function GivenByAccept(v: Conn, answers: seq<bool>): Conn {
    if Serves(v, answers) then NULL_CONN.(domain := Some(0), ep := Some(0), rxCq := Some(0), txCq := Some(0))
    else NULL_CONN
  }

  lemma {:induction false} AcceptedHandles(objs: Objects, v: Conn, answers: seq<bool>, objs': Objects, v': Conn,
      answers': seq<bool>, r: bool, w: Conn)
    requires Accepted(true, objs, v, answers, objs', v', answers', r, w)
    ensures SameHandles(v', LeftByAccept(v, answers)) && SameHandles(w, GivenByAccept(v, answers))
    ensures answers' == Skip(answers, Used(v, answers) + if Serves(v, answers) then 1 else 0)
  {
  }

  /** What accept does to the handles of the group. */
  predicate AcceptOutline(i: nat, s: Snapshot, s': Snapshot)
    requires i < |s.members| && i < |s.who|
  {
    |s'.members| == |s.members| + 1 &&
    var m, m', w := s.members[i], s'.members[i], s'.members[|s.members|];
    && (if m.isServer then
          && SameHandles(m'.conn, LeftByAccept(m.conn, s.answers)) && SameHandles(w.conn, GivenByAccept(m.conn, s.answers))
          && s'.answers == Skip(s.answers, Used(m.conn, s.answers) + if Serves(m.conn, s.answers) then 1 else 0)
        else m' == m && w.conn == NULL_CONN && s'.answers == s.answers)
    && m'.isServer == m.isServer && m'.failed == m.failed && !w.isServer && !w.failed
    && s'.members == s.members[i := m'] + [w]
    && s'.who == s.who + [Origin(s.next, Some(s.who[i].id))] && s'.next == s.next + 1
  }

  lemma {:induction false} AcceptHandles(i: nat, s: Snapshot, s': Snapshot)
    requires Effect(Accept(i), s, s') && i < |s.members|
    ensures AcceptOutline(i, s, s')
  {
    var m, v', w := s.members[i], s'.members[i].conn, s'.members[|s.members|].conn;
    var r :| Accepted(m.isServer, s.objs, m.conn, s.answers, s'.objs, v', s'.answers, r, w);
    if m.isServer {
      AcceptedHandles(s.objs, m.conn, s.answers, s'.objs, v', s'.answers, r, w);
    }
  }

  lemma {:induction false} LeftAlike(v: Conn, w: Conn, answers: seq<bool>)
    requires SameHandles(v, w)
    ensures SameHandles(LeftByAccept(v, answers), LeftByAccept(w, answers))
    ensures GivenByAccept(v, answers) == GivenByAccept(w, answers)
    ensures Used(v, answers) == Used(w, answers) && Serves(v, answers) == Serves(w, answers)
  {
    var k := PepAnswers(v);
    assert PepAnswers(w) == k;
    assert Serves(v, answers) == Serves(w, answers) == (Answer(answers, k) && Answer(answers, k + 9));
    if Serves(v, answers) {
      assert SameHandles(LeftByAccept(v, answers), LeftByAccept(w, answers));
    } else if Answer(answers, k) {
      assert SameHandles(LeftByAccept(v, answers), LeftByAccept(w, answers));
    }
  }

  lemma {:induction false} HandlesTrans(a: Conn, x: Conn, y: Conn, b: Conn)
    requires SameHandles(a, x) && SameHandles(x, y) && SameHandles(b, y)
    ensures SameHandles(a, b)
  {
  }

  lemma {:induction false} OutlinesAlike(i: nat, s: Snapshot, s': Snapshot, t: Snapshot, t': Snapshot)
    requires i < |s.members| == |s.who| && SameShape(s, t) && AcceptOutline(i, s, s') && AcceptOutline(i, t, t')
    ensures SameShape(s', t')
  {
    var m, x, n := s.members[i], t.members[i], |s.members|;
    assert Alike(m, x);
    if m.isServer {
      LeftAlike(m.conn, x.conn, s.answers);
      var left, given := LeftByAccept(m.conn, s.answers), GivenByAccept(m.conn, s.answers);
      HandlesTrans(s'.members[i].conn, left, LeftByAccept(x.conn, s.answers), t'.members[i].conn);
      HandlesTrans(s'.members[n].conn, given, given, t'.members[n].conn);
    }
    assert Alike(s'.members[i], t'.members[i]) && Alike(s'.members[n], t'.members[n]);
  }

  lemma {:induction false} AcceptAlike(i: nat, s: Snapshot, s': Snapshot, t: Snapshot, t': Snapshot)
    requires Effect(Accept(i), s, s') && Effect(Accept(i), t, t') && SameShape(s, t)
    ensures SameShape(s', t')
  {
    if i < |s.members| {
      AcceptHandles(i, s, s');
      AcceptHandles(i, t, t');
      OutlinesAlike(i, s, s', t, t');
    }
  }

  lemma {:induction false} CreateAlike(isServer: bool, s: Snapshot, s': Snapshot, t: Snapshot, t': Snapshot)
    requires Effect(Create(isServer), s, s') && Effect(Create(isServer), t, t') && SameShape(s, t)
    ensures SameShape(s', t')
  {
    assert Alike(s'.members[|s.members|], t'.members[|t.members|]);
  }

  lemma {:induction false} RegisterAlike(i: nat, key: nat, s: Snapshot, s': Snapshot, t: Snapshot, t': Snapshot)
    requires Effect(Register(i, key), s, s') && Effect(Register(i, key), t, t') && SameShape(s, t)
    ensures SameShape(s', t')
  {
    if i < |s.members| {
      assert Alike(s.members[i], t.members[i]);
    }
  }

  lemma {:induction false} MoveAlike(i: nat, s: Snapshot, s': Snapshot, t: Snapshot, t': Snapshot)
    requires Effect(MoveConstruct(i), s, s') && Effect(MoveConstruct(i), t, t') && SameShape(s, t)
    ensures SameShape(s', t')
  {
  }

  lemma {:induction false} AssignAlike(i: nat, j: nat, s: Snapshot, s': Snapshot, t: Snapshot, t': Snapshot)
    requires Effect(MoveAssign(i, j), s, s') && Effect(MoveAssign(i, j), t, t') && SameShape(s, t)
    ensures SameShape(s', t')
  {
    if Exists(MoveAssign(i, j), |s.members|) && i != j {
      assert Alike(s.members[i], t.members[i]) && Alike(s.members[j], t.members[j]);
    }
  }

  lemma {:induction false} DestroyAlike(i: nat, s: Snapshot, s': Snapshot, t: Snapshot, t': Snapshot)
    requires Effect(Destroy(i), s, s') && Effect(Destroy(i), t, t') && SameShape(s, t)
    ensures SameShape(s', t')
  {
  }

  /** One command, from states of the same shape with the same answers to come. */
  lemma {:induction false} EffectAlike(c: Command, s: Snapshot, s': Snapshot, t: Snapshot, t': Snapshot)
    requires Effect(c, s, s') && Effect(c, t, t') && SameShape(s, t)
    ensures SameShape(s', t')
  {
    match c
    case Create(isServer) => CreateAlike(isServer, s, s', t, t');
    case Connect(i) => ConnectAlike(i, s, s', t, t');
    case Accept(i) => AcceptAlike(i, s, s', t, t');
    case Register(i, key) => RegisterAlike(i, key, s, s', t, t');
    case MoveConstruct(i) => MoveAlike(i, s, s', t, t');
    case MoveAssign(i, j) => AssignAlike(i, j, s, s', t, t');
    case Destroy(i) => DestroyAlike(i, s, s', t, t');
  }

  /** The script and the answers decide the rest: two runs of a script with the same answers
      have the same connections with the same handles, flags and origins, and the same answers
      left, after every command that both complete, whatever keys the provider gave to
      regions. */
  lemma {:induction false} ScriptDecides(script: seq<Command>, answers: seq<bool>, careful: bool,
      one: seq<Snapshot>, two: seq<Snapshot>, k: nat)
    requires Trace(script, one, answers, careful) && Trace(script, two, answers, careful) && k < |one| && k < |two|
    ensures SameShape(one[k], two[k])
    decreases k
  {
    if k > 0 {
      ScriptDecides(script, answers, careful, one, two, k - 1);
      var c, s, t := script[k - 1], one[k - 1], two[k - 1];
      assert Obeys(c, s, one[k], careful) && Obeys(c, t, two[k], careful);
      CarefulAlike(s, t, c);
      if !careful || CarefulIn(s.members, s.who, c) {
        EffectAlike(c, s, one[k], t, two[k]);
      }
    }
  }

  lemma {:induction false} CarefulAlike(s: Snapshot, t: Snapshot, c: Command)
    requires SameShape(s, t) && |s.who| == |s.members|
    ensures CarefulIn(s.members, s.who, c) <==> CarefulIn(t.members, t.who, c)
  {
    if Exists(c, |s.members|) && !c.Create? {
      assert Alike(s.members[c.i], t.members[c.i]);
    }
  }
}
