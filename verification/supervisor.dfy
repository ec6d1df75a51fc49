/**
 * The session supervisor of the reverse proxy: a registry from session uid
 * to worker, a port counter and a uid counter, and the two request handlers
 * that use them. `/handshake` allocates a port and a uid, starts a worker on
 * that port and registers it under the uid's decimal rendering; `/graphql`
 * admits a request only when its `X-Serv-Uid` header is a registered key,
 * and then names the worker endpoint the request is forwarded to.
 */
module Supervisor {
  import opened Wrappers
  import opened Decimal

  /** The first port handed to a worker and the first session uid. */
  const FirstWorkerPort: nat := 4001
  const FirstUid: nat := 1000

  /** HTTP statuses the supervisor answers with. */
  const StatusOk: nat := 200
  const StatusForbidden: nat := 403

  /**
   * A launched worker, represented by what it was started with: `node`
   * running `./build/server.js` with the option `-p <port>`.
   */
  datatype Process = Process(command: string, args: seq<string>)

  function Spawn(port: nat): Process {
    Process("node", ["./build/server.js", "-p", NatToString(port)])
  }

  /** A registry entry: the worker process and the port it was given. */
  datatype Worker = Worker(process: Process, port: nat)

  /** The answer to a handshake: a status and a JSON body `{"uid":<uid>}`. */
  datatype Reply = Reply(status: nat, body: string)

  function UidBody(uid: nat): string {
    "{\"uid\":" + NatToString(uid) + "}"
  }

  /** What `/graphql` does with a request: reject it, or forward it to `target`. */
  datatype RouteOutcome = Reject(status: nat, body: string) | Forward(target: string)

  function Target(port: nat): string {
    "http://localhost:" + NatToString(port) + "/graphql"
  }

  /** Workers on distinct ports are reached through distinct targets. */
  lemma TargetInjective(p: nat, q: nat)
    ensures Target(p) == Target(q) <==> p == q
  {
    if Target(p) == Target(q) {
      var pre, suf := "http://localhost:", "/graphql";
      var a, b := NatToString(p), NatToString(q);
      assert |a| == |b|;
      assert a == Target(p)[|pre|..|pre| + |a|];
      assert b == Target(q)[|pre|..|pre| + |b|];
      NatToStringInjective(p, q);
    }
  }

  /** The key under which the session with the given uid is registered. */
  function Key(uid: nat): string {
    NatToString(uid)
  }

  /**
   * The registry after `n` handshakes. Nothing ever removes an entry, so the
   * registry is determined by the number of handshakes served: handshake `i`
   * (counting from 0) registers uid `FirstUid + i` on port `FirstWorkerPort + i`.
   */
  function Registered(n: nat): map<string, Worker> {
    if n == 0 then map[]
    else Registered(n - 1)[Key(FirstUid + n - 1) := Worker(Spawn(FirstWorkerPort + n - 1), FirstWorkerPort + n - 1)]
  }

  /** The registered keys are exactly the renderings of the uids handed out. */
  lemma {:induction false} RegisteredKeys(n: nat, k: string)
    ensures k in Registered(n) <==> exists u :: FirstUid <= u < FirstUid + n && k == Key(u)
  {
    if n > 0 {
      RegisteredKeys(n - 1, k);
      if k == Key(FirstUid + n - 1) {
        assert FirstUid <= FirstUid + n - 1 < FirstUid + n;
      }
    }
  }

  /** The session with uid `u` runs on port `FirstWorkerPort + (u - FirstUid)`, started with that port. */
  lemma {:induction false} RegisteredWorker(n: nat, u: nat)
    requires FirstUid <= u < FirstUid + n
    ensures Key(u) in Registered(n)
    ensures Registered(n)[Key(u)].port == FirstWorkerPort + (u - FirstUid)
    ensures Registered(n)[Key(u)].process == Spawn(Registered(n)[Key(u)].port)
  {
    if u < FirstUid + n - 1 {
      RegisteredWorker(n - 1, u);
      NatToStringInjective(u, FirstUid + n - 1);
    }
  }

  /** The uid a handshake is about to hand out is not yet a key. */
  lemma NextKeyFresh(n: nat)
    ensures Key(FirstUid + n) !in Registered(n)
  {
    RegisteredKeys(n, Key(FirstUid + n));
    forall u | FirstUid <= u < FirstUid + n
      ensures Key(FirstUid + n) != Key(u)
    {
      NatToStringInjective(FirstUid + n, u);
    }
  }

  /** After `n` handshakes the registry holds exactly `n` sessions. */
  lemma {:induction false} RegisteredCount(n: nat)
    ensures |Registered(n)| == n
  {
    if n > 0 {
      RegisteredCount(n - 1);
      NextKeyFresh(n - 1);
    }
  }

  /**
   * Allocation invariant: every registered port lies in
   * `[FirstWorkerPort, FirstWorkerPort + n)`, every registered uid in
   * `[FirstUid, FirstUid + n)`, and distinct sessions have distinct ports.
   */
  lemma RegisteredAllocation(n: nat, k: string, k': string)
    requires k in Registered(n) && k' in Registered(n)
    ensures FirstWorkerPort <= Registered(n)[k].port < FirstWorkerPort + n
    ensures ParseNat(k).Some? && FirstUid <= ParseNat(k).value < FirstUid + n
    ensures k != k' ==> Registered(n)[k].port != Registered(n)[k'].port
  {
    RegisteredKeys(n, k);
    RegisteredKeys(n, k');
    var u :| FirstUid <= u < FirstUid + n && k == Key(u);
    var u' :| FirstUid <= u' < FirstUid + n && k' == Key(u');
    RegisteredWorker(n, u);
    RegisteredWorker(n, u');
    ParseNatToString(u);
  }

  /** Later sessions get strictly greater ports. */
  lemma PortsIncrease(n: nat, u: nat, u': nat)
    requires FirstUid <= u < u' < FirstUid + n
    ensures Key(u) in Registered(n) && Key(u') in Registered(n)
    ensures Registered(n)[Key(u)].port < Registered(n)[Key(u')].port
  {
    RegisteredWorker(n, u);
    RegisteredWorker(n, u');
  }

  /**
   * A header is admitted only as the exact rendering: a zero-padded uid, for
   * one, is never a key.
   */
  lemma PaddedUidRejected(n: nat, u: nat)
    ensures "0" + Key(u) !in Registered(n)
  {
  }

  /**
   * Ports are never bounded: handshake number 61535 (counting from 0) hands
   * its worker port 65536, outside the TCP port range.
   */
  lemma PortsLeaveTcpRange()
    ensures Key(FirstUid + 61535) in Registered(61536)
    ensures Registered(61536)[Key(FirstUid + 61535)].port == 65536
  {
  }

  /** The supervisor's module-level state and its two handlers. */
  class Supervisor {
    var uidToPort: map<string, Worker>
    var serverPort: nat
    var serverUid: nat

    /** Both counters advance together, and the registry holds one entry per handshake served. */
    ghost predicate Valid()
      reads this
    {
      FirstWorkerPort <= serverPort && FirstUid <= serverUid &&
      serverPort - FirstWorkerPort == serverUid - FirstUid &&
      uidToPort == Registered(serverUid - FirstUid)
    }

    constructor ()
      ensures Valid()
      ensures uidToPort == map[] && serverPort == FirstWorkerPort && serverUid == FirstUid
    {
      uidToPort := map[];
      serverPort := FirstWorkerPort;
      serverUid := FirstUid;
    }

    /**
     * `/handshake`: hand out the current port and uid, advance both counters
     * by one, register the new worker under the uid's rendering (a key not
     * present before, so no entry is overwritten) and answer 200 with the uid.
     */
    method Handshake() returns (reply: Reply)
      requires Valid()
      modifies this
      ensures Valid()
      ensures serverPort == old(serverPort) + 1 && serverUid == old(serverUid) + 1
      ensures Key(old(serverUid)) !in old(uidToPort)
      ensures uidToPort == old(uidToPort)[Key(old(serverUid)) := Worker(Spawn(old(serverPort)), old(serverPort))]
      ensures reply == Reply(StatusOk, UidBody(old(serverUid)))
    {
      NextKeyFresh(serverUid - FirstUid);
      var workerPort := serverPort;
      serverPort := serverPort + 1;
      var worker := Spawn(workerPort);
      var workerUid := serverUid;
      serverUid := serverUid + 1;
      uidToPort := uidToPort[Key(workerUid) := Worker(worker, workerPort)];
      reply := Reply(StatusOk, UidBody(workerUid));
    }

    /**
     * `/graphql`: a missing or empty header, or one that is not a registered
     * key, is rejected with 403 and an empty body; a registered key is
     * forwarded to the `/graphql` endpoint of the port stored for it. No
     * state is changed either way.
     */
    method Graphql(header: Option<string>) returns (r: RouteOutcome)
      ensures r.Reject? <==> header == None || header.value == "" || header.value !in uidToPort
      ensures r.Reject? ==> r == Reject(StatusForbidden, "")
      ensures r.Forward? ==> header.Some? && r.target == Target(uidToPort[header.value].port)
    {
      if header == None || header.value == "" || header.value !in uidToPort {
        return Reject(StatusForbidden, "");
      }
      var processPort := uidToPort[header.value].port;
      r := Forward(Target(processPort));
    }
  }

  /**
   * Two sessions in a row: each handshake answers with its own uid, both
   * uids are admitted and reach different workers, and an unknown or
   * missing header is rejected.
   */
  method TwoSessions() {
    var s := new Supervisor();
    var first := s.Handshake();
    var second := s.Handshake();
    assert first.body == UidBody(FirstUid) && second.body == UidBody(FirstUid + 1);
    var a := s.Graphql(Some(Key(FirstUid)));
    var b := s.Graphql(Some(Key(FirstUid + 1)));
    NatToStringInjective(FirstUid, FirstUid + 1);
    TargetInjective(FirstWorkerPort, FirstWorkerPort + 1);
    assert a == Forward(Target(FirstWorkerPort));
    assert b == Forward(Target(FirstWorkerPort + 1));
    assert a != b;
    var c := s.Graphql(None);
    assert c == Reject(StatusForbidden, "");
    NextKeyFresh(2);
    var d := s.Graphql(Some(Key(FirstUid + 2)));
    assert d == Reject(StatusForbidden, "");
  }
}
