/** The state of one joint-funding round (`JoinQueue`). In the source the
    struct is passed by value but every field is a map or a pointer, so all
    copies share one record: it is a mutable object here. */
module Queue {
  import opened Types

  /** A snapshot of one round's fields, for stating how a handler changes them. */
  datatype Round = Round(participants: map<int, FundingInfo>, tx: Transaction, pid: int, sid: int, cid: map<int, bool>)

  /** The round `NewJoinQueue` creates. */
  const NewRound := Round(map[], EmptyTransaction, 0, 1, map[])

  /** Participant ids are exactly 1..pid, the cursor starts at 1 and only
      `true` is ever stored as a completion flag. */
  predicate WellFormed(r: Round)
  {
    && 0 <= r.pid
    && r.participants.Keys == IdsUpTo(r.pid)
    && 1 <= r.sid
    && (forall k :: k in r.cid ==> r.cid[k])
  }

  class JoinQueue {
    /** Registered funding requests, keyed by participant id. */
    var participants: map<int, FundingInfo>
    /** The shared transaction record. */
    var tx: Transaction
    /** The last participant id handed out. */
    var pid: int
    /** The signing cursor: the participant whose signature is awaited. */
    var sid: int
    /** Completion flags, keyed by participant id. */
    var cid: map<int, bool>

    /** The current values of the fields. */
    function State(): Round
      reads this
    {
      Round(participants, tx, pid, sid, cid)
    }

    ghost predicate Valid()
      reads this
    {
      WellFormed(State())
    }

    /** `NewJoinQueue`: no participants, counter 0, cursor 1, no completions,
        an allocated but empty transaction record. */
    constructor ()
      ensures Valid() && State() == NewRound
    {
      participants := map[];
      tx := EmptyTransaction;
      pid := 0;
      sid := 1;
      cid := map[];
    }

    /** Registers a request under the next participant id and returns that id. */
    method Add(f: FundingInfo) returns (p: int)
      requires Valid()
      modifies this`pid, this`participants
      ensures Valid()
      ensures p == pid == old(pid) + 1
      ensures p !in old(participants) && forall k :: k in old(participants) ==> k < p
      ensures participants == old(participants)[p := f]
      ensures tx == old(tx) && sid == old(sid) && cid == old(cid)
      ensures State() == Added(old(State()), f)
    {
      IdsUpToMembers(pid);
      pid := pid + 1;
      participants := participants[pid := f];
      p := pid;
    }

    /** Overwrites the shared transaction record. */
    method SetTx(t: Transaction)
      modifies this`tx
      ensures tx == t
      ensures participants == old(participants) && pid == old(pid)
      ensures sid == old(sid) && cid == old(cid)
    {
      tx := t;
    }
  }

  /** What `Add` does to a round: the request is stored under the next id. */
  function Added(r: Round, f: FundingInfo): Round
  {
    r.(pid := r.pid + 1, participants := r.participants[r.pid + 1 := f])
  }

  /** The round after registering `fs` in order, starting from `r`. */
  function AddedAll(r: Round, fs: seq<FundingInfo>): Round
    decreases |fs|
  {
    if fs == [] then r else Added(AddedAll(r, fs[..|fs| - 1]), fs[|fs| - 1])
  }

  /** Registering `fs` in a fresh round: the k-th request is stored under id
      k, the counter equals the number registered, and nothing else of the
      round changes. */
  lemma {:induction false} RegistrationOrder(fs: seq<FundingInfo>)
    ensures var r := AddedAll(NewRound, fs);
      && WellFormed(r)
      && r.pid == |fs|
      && (forall k :: 1 <= k <= |fs| ==> k in r.participants && r.participants[k] == fs[k - 1])
      && r.tx == EmptyTransaction && r.sid == 1 && r.cid == map[]
    decreases |fs|
  {
    if fs != [] {
      var init := fs[..|fs| - 1];
      RegistrationOrder(init);
      var r := AddedAll(NewRound, init);
      forall k | 1 <= k < |fs|
        ensures k in r.participants && r.participants[k] == fs[k - 1]
      {
        assert init[k - 1] == fs[k - 1];
      }
    }
  }

  /** So a round that has registered `fs` holds exactly |fs| participants. */
  lemma RegistrationCount(fs: seq<FundingInfo>)
    ensures |AddedAll(NewRound, fs).participants| == |fs|
  {
    RegistrationOrder(fs);
    IdsUpToCount(|fs|);
  }

  /** The participant ids of a round that has handed out `n` of them. */
  function IdsUpTo(n: int): set<int>
    decreases n
  {
    if n <= 0 then {} else IdsUpTo(n - 1) + {n}
  }

  /** The ids handed out are exactly 1..n. */
  lemma {:induction false} IdsUpToMembers(n: int)
    ensures forall k :: k in IdsUpTo(n) <==> 1 <= k <= n
    decreases n
  {
    if n > 0 {
      IdsUpToMembers(n - 1);
    }
  }

  /** There are n of them: the length check of the coordinator sees the
      participant counter. */
  lemma {:induction false} IdsUpToCount(n: nat)
    ensures |IdsUpTo(n)| == n
  {
    if n > 0 {
      IdsUpToCount(n - 1);
      IdsUpToMembers(n - 1);
    }
  }
}
