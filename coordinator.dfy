/** The coordination service: the handlers of `/join`, `/status/`, `/sig`,
    `/complete/` and `/update/` as atomic steps over the round map `queue`
    and the current round id `mixid`. */
module Coordinator {
  import opened Types
  import opened Queue

  /** `N_PARTICIPANTS`: the number of participants that closes a round. */
  const Quorum: int := 2

  /** The wallet and chain calls the coordinator makes; their internals are
      not part of this model. */
  datatype Wallet = Wallet(
    /** `wallet.CreateTransaction`: the unsigned draft built from the
        aggregated recipients and inputs. */
    createTransaction: (seq<TxRecipient>, seq<Utxo>) -> seq<byte>,
    /** `wire.MsgTx.Deserialize` followed by `TxHash().String()`. */
    txHash: seq<byte> -> string,
    /** `hex.DecodeString`, with its error dropped as the handler drops it. */
    hexDecode: string -> seq<byte>)

  /** A call of the transaction builder, recorded with the round it closed. */
  datatype BuildCall = BuildCall(round: int, recipients: seq<TxRecipient>, utxos: seq<Utxo>)

  /** A broadcast attempt (`SendTx`) of a round's transaction record. */
  datatype Broadcast = Broadcast(round: int, tx: Transaction)

  /** What `/sig` does: reject an undecodable body, apply the submission, or
      panic on an unknown round (the record's `Tx` pointer is nil). */
  datatype SigOutcome = SigRejected(response: JoinStatusResponse) | SigApplied | SigPanicked

  /** What `/complete/` does: record the flag (and report whether a broadcast
      was attempted), or panic on an unknown round (its flag map is nil). */
  datatype CompleteOutcome = Recorded(broadcast: bool) | CompletePanicked

  /** What `/update/` does: reply, or panic on an unknown round. */
  datatype UpdateOutcome = Updated(reply: JoinUpdateResponse) | UpdatePanicked

  // ---------------------------------------------------------------------
  // Aggregation of the participants' requests when a round closes

  /** A non-empty set has a member (what iterating over a map relies on). */
  lemma Member<T>(s: set<T>) returns (k: T)
    requires s != {}
    ensures k in s
  {
    // Rule out the empty case explicitly first: the verifier then finds the
    // witness of `:|` without relying on an assumption it flags as contradictory.
    if forall x :: x !in s {
      assert false;
    }
    k :| k in s;
  }

  /** The list stored under `k`, or none. */
  function ListAt<T>(lists: map<int, seq<T>>, k: int): seq<T>
  {
    if k in lists then lists[k] else []
  }

  /** The lists of `lists` concatenated in the order the keys appear in `order`. */
  function Flatten<T>(lists: map<int, seq<T>>, order: seq<int>): seq<T>
    decreases |order|
  {
    if order == [] then []
    else Flatten(lists, order[..|order| - 1]) + ListAt(lists, order[|order| - 1])
  }

  function RecipientLists(parts: map<int, FundingInfo>): map<int, seq<TxRecipient>>
  {
    map k | k in parts :: parts[k].recipients
  }

  function UtxoLists(parts: map<int, FundingInfo>): map<int, seq<Utxo>>
  {
    map k | k in parts :: parts[k].utxos
  }

  /** The participant ids 1..n in registration order. */
  function PidOrder(n: int): seq<int>
    decreases n
  {
    if n <= 0 then [] else PidOrder(n - 1) + [n]
  }

  /** The multiset union of the lists of participants 1..n. */
  ghost function BagUpTo<T>(lists: map<int, seq<T>>, n: int): multiset<T>
    decreases n
  {
    if n <= 0 then multiset{} else BagUpTo(lists, n - 1) + multiset(ListAt(lists, n))
  }

  /** The builder was given every participant's recipients and inputs, each
      exactly as often as they were requested, in some order. */
  ghost predicate BuiltFrom(b: BuildCall, parts: map<int, FundingInfo>)
  {
    && multiset(b.recipients) == BagUpTo(RecipientLists(parts), |parts|)
    && multiset(b.utxos) == BagUpTo(UtxoLists(parts), |parts|)
  }

  lemma {:induction false} FlattenAppend<T>(lists: map<int, seq<T>>, a: seq<int>, b: seq<int>)
    ensures Flatten(lists, a + b) == Flatten(lists, a) + Flatten(lists, b)
    decreases |b|
  {
    if b == [] {
      assert a + b == a;
    } else {
      var b' := b[..|b| - 1];
      assert (a + b)[..|a + b| - 1] == a + b';
      FlattenAppend(lists, a, b');
    }
  }

  /** Taking out the element at `j` takes one copy of it out of the multiset. */
  lemma Splice<T>(b: seq<T>, j: int)
    requires 0 <= j < |b|
    ensures multiset(b) == multiset(b[..j] + b[j + 1..]) + multiset{b[j]}
  {
    assert b == b[..j] + [b[j]] + b[j + 1..];
  }

  /** Multiset union with one element cancels. */
  lemma Cancel<T>(a: multiset<T>, b: multiset<T>, x: T)
    requires a + multiset{x} == b + multiset{x}
    ensures a == b
  {
    forall y ensures a[y] == b[y] {
      assert (a + multiset{x})[y] == (b + multiset{x})[y];
    }
  }

  /** Taking one id out of an order takes its list out of the concatenation. */
  lemma FlattenSplice<T>(lists: map<int, seq<T>>, b: seq<int>, j: int)
    requires 0 <= j < |b|
    ensures multiset(Flatten(lists, b))
         == multiset(Flatten(lists, b[..j] + b[j + 1..])) + multiset(ListAt(lists, b[j]))
  {
    var left, right := b[..j], b[j + 1..];
    assert b == left + [b[j]] + right;
    FlattenAppend(lists, left, [b[j]]);
    FlattenAppend(lists, left + [b[j]], right);
    FlattenAppend(lists, left, right);
    assert Flatten(lists, [b[j]]) == ListAt(lists, b[j]) by {
      assert [b[j]][..0] == [];
    }
  }

  /** Concatenating the same lists in any other order yields the same
      multiset of elements. */
  lemma {:induction false} FlattenPermutation<T>(lists: map<int, seq<T>>, a: seq<int>, b: seq<int>)
    requires multiset(a) == multiset(b)
    ensures multiset(Flatten(lists, a)) == multiset(Flatten(lists, b))
    decreases |a|
  {
    if a != [] {
      var x := a[|a| - 1];
      var a' := a[..|a| - 1];
      assert a == a' + [x];
      assert x in multiset(b);
      var j :| 0 <= j < |b| && b[j] == x;
      var b' := b[..j] + b[j + 1..];
      Splice(b, j);
      Cancel(multiset(a'), multiset(b'), x);
      FlattenPermutation(lists, a', b');
      FlattenSplice(lists, b, j);
    }
  }

  lemma {:induction false} PidOrderIds(n: nat)
    ensures |PidOrder(n)| == n
    ensures multiset(PidOrder(n)) == multiset(IdsUpTo(n))
  {
    if n > 0 {
      PidOrderIds(n - 1);
      IdsUpToMembers(n - 1);
      assert n !in IdsUpTo(n - 1);
      assert multiset(IdsUpTo(n)) == multiset(IdsUpTo(n - 1)) + multiset{n} by {
        forall x ensures multiset(IdsUpTo(n))[x] == (multiset(IdsUpTo(n - 1)) + multiset{n})[x] {
        }
      }
    }
  }

  lemma {:induction false} FlattenPidOrder<T>(lists: map<int, seq<T>>, n: nat)
    ensures multiset(Flatten(lists, PidOrder(n))) == BagUpTo(lists, n)
  {
    if n > 0 {
      FlattenPidOrder(lists, n - 1);
      PidOrderIds(n - 1);
      var o := PidOrder(n);
      assert o[..|o| - 1] == PidOrder(n - 1) && o[|o| - 1] == n;
    }
  }

  /** Whatever order a Go map hands out the ids 1..n in, the concatenation
      holds exactly the multiset union of the participants' lists. */
  lemma EnumerationBag<T>(lists: map<int, seq<T>>, order: seq<int>, n: nat)
    requires multiset(order) == multiset(IdsUpTo(n))
    ensures multiset(Flatten(lists, order)) == BagUpTo(lists, n)
  {
    PidOrderIds(n);
    FlattenPidOrder(lists, n);
    FlattenPermutation(lists, order, PidOrder(n));
  }

  /** The aggregation loop of `/join`: visit every participant once, in the
      unspecified order of map iteration (returned as `order`), appending its
      recipients and inputs. */
  method Aggregate(parts: map<int, FundingInfo>)
    returns (recipients: seq<TxRecipient>, utxos: seq<Utxo>, ghost order: seq<int>)
    ensures multiset(order) == multiset(parts.Keys)
    ensures forall k :: k in order ==> k in parts
    ensures recipients == Flatten(RecipientLists(parts), order)
    ensures utxos == Flatten(UtxoLists(parts), order)
  {
    recipients, utxos, order := [], [], [];
    var rest := parts.Keys;
    while rest != {}
      invariant rest <= parts.Keys
      invariant forall k :: k in order ==> k in parts
      invariant multiset(order) + multiset(rest) == multiset(parts.Keys)
      invariant recipients == Flatten(RecipientLists(parts), order)
      invariant utxos == Flatten(UtxoLists(parts), order)
      decreases rest
    {
      ghost var some := Member(rest);
      var k :| k in rest;
      recipients := recipients + parts[k].recipients;
      utxos := utxos + parts[k].utxos;
      assert (order + [k])[..|order|] == order;
      assert multiset(rest) == multiset(rest - {k}) + multiset{k} by {
        forall x ensures multiset(rest)[x] == (multiset(rest - {k}) + multiset{k})[x] {
        }
      }
      order := order + [k];
      rest := rest - {k};
    }
  }

  // ---------------------------------------------------------------------
  // Completion flags

  /** The participants whose completion flag is set. */
  function Completed(cid: map<int, bool>): set<int>
  {
    set k | k in cid && cid[k]
  }

  /** Setting a completion flag: the set of completed ids gains exactly `p`,
      so marking the same participant again changes nothing. */
  lemma CompletionIdempotent(cid: map<int, bool>, p: int)
    ensures Completed(cid[p := true]) == Completed(cid) + {p}
    ensures cid[p := true][p := true] == cid[p := true]
  {
  }

  /** The counting loop of `/complete/`: the number of set flags. */
  method CountCompleted(cid: map<int, bool>) returns (n: nat)
    ensures n == |Completed(cid)|
  {
    n := 0;
    var rest := cid.Keys;
    ghost var seen: set<int> := {};
    ghost var counted: set<int> := {};
    while rest != {}
      invariant seen + rest == cid.Keys && seen !! rest
      invariant counted == set k | k in seen && cid[k]
      invariant n == |counted|
      decreases rest
    {
      ghost var some := Member(rest);
      var k :| k in rest;
      if cid[k] {
        n := n + 1;
        counted := counted + {k};
      }
      seen := seen + {k};
      rest := rest - {k};
    }
    assert seen == cid.Keys;
  }

  /** The text of a successful join response. */
  function JoinMessage(id: int, pid: int): string
  {
    "successfuly queued to join funding for join: " + DecimalString(id)
      + " participant: " + DecimalString(pid)
  }

  function DecimalString(n: int): string
  {
    if n < 0 then "-" + Digits(-n) else Digits(n)
  }

  function Digits(n: nat): string
    decreases n
  {
    (if n >= 10 then Digits(n / 10) else "") + ["0123456789"[n % 10]]
  }

  // ---------------------------------------------------------------------
  // The service

  /** Per-round invariant. A closed round (id below `mixid`) holds exactly
      `Quorum` participants; the open round holds fewer than `cap` (so
      fewer than `Quorum` between requests) and, until someone submits, the
      empty record; the final signed bytes and id stay empty until the
      cursor has passed `Quorum`. */
  ghost predicate RoundValid(r: Round, m: int, mixid: int, cap: int := Quorum)
  {
    && WellFormed(r)
    && (m < mixid ==> r.pid == Quorum)
    && (m == mixid ==> r.pid < cap && (r.sid == 1 ==> r.tx == EmptyTransaction))
    && (r.sid <= Quorum ==> r.tx.signed == [] && r.tx.txId == "")
  }

  /** The record the builder's result is stored as: unsigned bytes only. */
  function Draft(b: BuildCall, wallet: Wallet): Transaction
  {
    Transaction(wallet.createTransaction(b.recipients, b.utxos), [], "")
  }

  /** What `/sig` does to a round: the submitted bytes become the working
      draft and the cursor moves on; once it has passed `Quorum` they are
      also the final signed bytes, and their hash the transaction id. */
  function Submit(r: Round, signed: seq<byte>, txHash: seq<byte> -> string): Round
  {
    var tx := r.tx.(unsigned := signed);
    r.(sid := r.sid + 1,
       tx := if r.sid + 1 > Quorum then tx.(signed := signed, txId := txHash(signed)) else tx)
  }

  /** A submission keeps every round invariant, whatever round it lands in. */
  lemma SubmitKeepsRound(r: Round, signed: seq<byte>, txHash: seq<byte> -> string, m: int, mixid: int)
    requires RoundValid(r, m, mixid)
    ensures RoundValid(Submit(r, signed, txHash), m, mixid)
  {
  }

  /** The round after the submissions `subs`, in order. */
  function SubmitAll(r: Round, subs: seq<seq<byte>>, txHash: seq<byte> -> string): Round
    decreases |subs|
  {
    if subs == [] then r else Submit(SubmitAll(r, subs[..|subs| - 1], txHash), subs[|subs| - 1], txHash)
  }

  /** A run of submissions moves the cursor once per submission and touches
      nothing but the transaction record; the working draft is the last
      submission; the final bytes and id stay as they were while the cursor
      has not passed `Quorum`, and once it has they are the last submission
      and its hash. */
  lemma {:induction false} SubmissionsFinalize(r: Round, subs: seq<seq<byte>>, txHash: seq<byte> -> string)
    ensures var s := SubmitAll(r, subs, txHash);
      && s.sid == r.sid + |subs|
      && s.participants == r.participants && s.pid == r.pid && s.cid == r.cid
      && (subs != [] ==> s.tx.unsigned == subs[|subs| - 1])
      && (s.sid <= Quorum ==> s.tx.signed == r.tx.signed && s.tx.txId == r.tx.txId)
      && (subs != [] && s.sid > Quorum ==>
            s.tx.signed == subs[|subs| - 1] && s.tx.txId == txHash(subs[|subs| - 1]))
    decreases |subs|
  {
    if subs != [] {
      SubmissionsFinalize(r, subs[..|subs| - 1], txHash);
    }
  }

  /** What `/complete/` does to a round: set one completion flag. */
  function Mark(r: Round, p: int): Round
  {
    r.(cid := r.cid[p := true])
  }

  lemma MarkKeepsRound(r: Round, p: int, m: int, mixid: int)
    requires RoundValid(r, m, mixid)
    ensures RoundValid(Mark(r, p), m, mixid)
  {
  }

  /** What registering a request does to the open round: a decodable one
      is added under the next participant id, an undecodable one changes
      nothing. */
  function Enrolled(r: Round, req: Decoded<FundingInfo>): Round
  {
    if req.Decoded? then Added(r, req.value) else r
  }

  /** A round closes on exactly the registration that brings it to
      `Quorum` participants; a rejected request never closes it. */
  lemma {:induction false} ClosesAtQuorum(r: Round, req: Decoded<FundingInfo>, mixid: int)
    requires RoundValid(r, mixid, mixid)
    ensures Full(Enrolled(r, req)) <==> req.Decoded? && r.pid + 1 == Quorum
  {
    IdsUpToCount(r.pid);
    if req.Decoded? {
      IdsUpToCount(r.pid + 1);
    }
  }

  /** The reply to `/join` once the request is registered in round `id`,
      whose state is now `r`. */
  function JoinReply(id: int, r: Round, req: Decoded<FundingInfo>): JoinStartResponse
  {
    if req.Decoded? then JoinStartResponse(JoinStartResponseData(JoinMessage(id, r.pid), id, r.pid), "")
    else JoinStartResponse(JoinStartResponseData("", 0, 0), req.message)
  }

  /** The length check that closes a round. */
  predicate Full(r: Round)
  {
    |r.participants| >= Quorum
  }

  /** The builder call that closed round `id`, whose state was `r`. */
  ghost predicate Closes(b: BuildCall, id: int, r: Round)
  {
    b.round == id && BuiltFrom(b, r.participants)
  }

  class Coordinator {
    const wallet: Wallet
    /** The rounds, keyed by round id. */
    var queue: map<int, JoinQueue>
    /** The id of the round that joins go to. */
    var mixid: int
    /** Every call of the transaction builder, in order. */
    ghost var builds: seq<BuildCall>
    /** Every broadcast attempt, in order. */
    ghost var broadcasts: seq<Broadcast>

    /** Service invariant: round ids 1..mixid-1 are closed rounds, `mixid` is
        the only round that may be open, every round id has a record of its
        own (each is made by its own `NewJoinQueue`), and every round
        satisfies `RoundValid`. */
    ghost predicate Valid()
      reads this, queue.Values
    {
      Below(Quorum)
    }

    /** `Valid` with the open round allowed fewer than `cap` participants:
        `Below(Quorum + 1)` is the state between registering a request and
        the length check. */
    ghost predicate Below(cap: int)
      reads this, queue.Values
    {
      && 1 <= mixid
      && |builds| == mixid - 1
      && (forall m :: m in queue ==> 1 <= m <= mixid)
      && (forall m :: 1 <= m < mixid ==> m in queue)
      && (forall m, m' :: m in queue && m' in queue && m != m' ==> queue[m] != queue[m'])
      && (forall m :: m in queue ==> RoundValid(queue[m].State(), m, mixid, cap))
    }

    /** The record of round `m`, if it exists. */
    ghost function RoundAt(m: int): set<JoinQueue>
      reads this
    {
      if m in queue then {queue[m]} else {}
    }

    /** The open round; a round not yet created is the one `NewJoinQueue` makes. */
    ghost function OpenState(): Round
      reads this, RoundAt(mixid)
    {
      if mixid in queue then queue[mixid].State() else NewRound
    }

    /** `p` is a registered participant of round `m` and holds the cursor. */
    ghost predicate IsTurn(m: int, p: int)
      reads this, queue.Values
    {
      m in queue && p in queue[m].participants && queue[m].sid == p
    }

    /** Between requests no round holds more than `Quorum` participants,
        every closed round holds exactly `Quorum`, and the open round fewer. */
    lemma RoundSizes()
      requires Valid()
      ensures forall m :: m in queue ==> |queue[m].participants| <= Quorum
      ensures forall m :: m in queue && m < mixid ==> |queue[m].participants| == Quorum
      ensures mixid in queue ==> |queue[mixid].participants| < Quorum
    {
      forall m | m in queue
        ensures |queue[m].participants| == queue[m].pid
      {
        IdsUpToCount(queue[m].pid);
      }
    }

    /** A fresh service: no rounds, the first round id is 1. */
    constructor (wallet: Wallet)
      ensures Valid()
      ensures this.wallet == wallet && queue == map[] && mixid == 1
      ensures builds == [] && broadcasts == []
    {
      this.wallet := wallet;
      queue := map[];
      mixid := 1;
      builds := [];
      broadcasts := [];
    }

    /** `/join`: create the round `mixid` if it does not exist, register a
        decodable request in it, and close the round once it holds `Quorum`
        participants: aggregate every request, build the draft, store it and
        move `mixid` on. */
    method Join(req: Decoded<FundingInfo>) returns (res: JoinStartResponse)
      requires Valid()
      modifies this`queue, this`mixid, this`builds, RoundAt(mixid)
      ensures old(mixid) in queue && queue == old(queue)[old(mixid) := queue[old(mixid)]]
      ensures old(mixid) in old(queue) ==> queue[old(mixid)] == old(queue[mixid])
      ensures old(mixid) !in old(queue) ==> fresh(queue[old(mixid)])
      ensures var r := Enrolled(old(OpenState()), req);
        && res == JoinReply(old(mixid), r, req)
        && if Full(r) then
             && mixid == old(mixid) + 1 && |builds| == |old(builds)| + 1
             && builds[..|old(builds)|] == old(builds)
             && Closes(builds[|old(builds)|], old(mixid), r)
             && queue[old(mixid)].State() == r.(tx := Draft(builds[|old(builds)|], wallet))
           else
             && mixid == old(mixid) && builds == old(builds)
             && queue[old(mixid)].State() == r
      ensures Valid()
    {
      var q := OpenRoundRecord();
      res := Register(q, req);
      Settle(q);
    }

    /** The first step of `/join`: the record of round `mixid`, created
        (as `NewJoinQueue` makes it) only when none exists. */
    method OpenRoundRecord() returns (q: JoinQueue)
      requires Valid()
      modifies this`queue
      ensures Valid()
      ensures queue == old(queue)[mixid := q]
      ensures q.State() == old(OpenState())
      ensures old(mixid in queue) ==> q == old(queue[mixid])
      ensures old(mixid !in queue) ==> fresh(q)
    {
      if mixid in queue {
        q := queue[mixid];
      } else {
        q := new JoinQueue();
        queue := queue[mixid := q];
      }
    }

    /** The registering step of `/join`: `Add` a decodable request to the
        open round, which may now hold `Quorum` participants. */
    method Register(q: JoinQueue, req: Decoded<FundingInfo>) returns (res: JoinStartResponse)
      requires Valid() && mixid in queue && q == queue[mixid]
      modifies q`pid, q`participants
      ensures Below(Quorum + 1)
      ensures forall m :: m in queue && m != mixid ==> queue[m] != q
      ensures q.State() == Enrolled(old(q.State()), req)
      ensures res == JoinReply(mixid, q.State(), req)
    {
      if req.DecodeError? {
        res := JoinStartResponse(JoinStartResponseData("", 0, 0), req.message);
      } else {
        var p := q.Add(req.value);
        res := JoinStartResponse(JoinStartResponseData(JoinMessage(mixid, p), mixid, p), "");
      }
    }

    /** The length check of `/join`: a full round is closed, any other
        stays open. */
    method Settle(q: JoinQueue)
      requires Below(Quorum + 1) && mixid in queue && q == queue[mixid]
      requires forall m :: m in queue && m != mixid ==> queue[m] != q
      modifies this`mixid, this`builds, q`tx
      ensures Valid()
      ensures var r := old(q.State());
        if Full(r) then
          && mixid == old(mixid) + 1 && |builds| == |old(builds)| + 1
          && builds[..|old(builds)|] == old(builds)
          && Closes(builds[|old(builds)|], old(mixid), r)
          && q.State() == r.(tx := Draft(builds[|old(builds)|], wallet))
        else
          && mixid == old(mixid) && builds == old(builds) && q.State() == r
    {
      IdsUpToCount(q.pid);
      if |q.participants| >= Quorum {
        var b, draft := Build(q.participants, q.pid, mixid);
        CloseRound(q, b, draft);
      } else {
        StillOpen();
      }
    }

    /** A round that is still short of `Quorum` stays open. */
    lemma StillOpen()
      requires Below(Quorum + 1) && mixid in queue && queue[mixid].pid < Quorum
      ensures Valid()
    {
    }

    /** The last step of `/join` on a full round: store the built draft and
        open the next round id. */
    method CloseRound(q: JoinQueue, b: BuildCall, draft: Transaction)
      requires Below(Quorum + 1) && mixid in queue && q == queue[mixid] && q.pid >= Quorum
      requires forall m :: m in queue && m != mixid ==> queue[m] != q
      requires draft.signed == [] && draft.txId == ""
      modifies this`mixid, this`builds, q`tx
      ensures Valid()
      ensures mixid == old(mixid) + 1 && builds == old(builds) + [b] && q.tx == draft
    {
      q.SetTx(draft);
      builds := builds + [b];
      mixid := mixid + 1;
      assert RoundValid(q.State(), old(mixid), mixid);
      forall m | m in queue && m != old(mixid)
        ensures RoundValid(queue[m].State(), m, mixid)
      {
        assert RoundValid(old(queue[m].State()), m, old(mixid), Quorum + 1);
      }
    }

    /** The closing step of `/join`: aggregate the requests of a full round
        and hand them to the builder. */
    method Build(parts: map<int, FundingInfo>, n: nat, round: int) returns (b: BuildCall, draft: Transaction)
      requires parts.Keys == IdsUpTo(n)
      ensures b.round == round && BuiltFrom(b, parts) && draft == Draft(b, wallet)
    {
      var recipients, utxos, order := Aggregate(parts);
      b := BuildCall(round, recipients, utxos);
      draft := Transaction(wallet.createTransaction(recipients, utxos), [], "");
      IdsUpToCount(n);
      EnumerationBag(RecipientLists(parts), order, n);
      EnumerationBag(UtxoLists(parts), order, n);
    }

    /** `/status/<round>/<participant>`: the working draft goes only to the
        registered participant that holds the cursor; everyone else gets no
        bytes, with the participant-id parse error, or "Invalid mix id" for a
        round id beyond `mixid`, or no error. */
    method Status(mid: ParsedInt, pid: ParsedInt) returns (res: JoinStatusResponse)
      requires Valid()
      ensures res.tx != [] ==> IsTurn(mid.value, pid.value)
      ensures IsTurn(mid.value, pid.value) ==>
                res == JoinStatusResponse(queue[mid.value].tx.unsigned, "")
      ensures !IsTurn(mid.value, pid.value) ==>
                res.tx == [] &&
                res.error == (if pid.err != "" then pid.err
                              else if mid.value > mixid then "Invalid mix id" else "")
      ensures mid.value > mixid && pid.err == "" ==> res == JoinStatusResponse([], "Invalid mix id")
      ensures mid.value == mixid && mid.value in queue && queue[mid.value].sid == 1 ==> res.tx == []
    {
      var m, p := mid.value, pid.value;
      if m in queue {
        var join := queue[m];
        if p in join.participants {
          if join.sid == p {
            return JoinStatusResponse(join.tx.unsigned, "");
          }
        }
      }
      if pid.err != "" {
        return JoinStatusResponse([], pid.err);
      }
      if m > mixid {
        return JoinStatusResponse([], "Invalid mix id");
      }
      res := JoinStatusResponse([], "");
    }

    /** The records a `/sig` request may change. */
    ghost function SubmissionTarget(req: Decoded<TransactionSubmission>): set<JoinQueue>
      reads this
    {
      if req.Decoded? then RoundAt(req.value.id) else {}
    }

    /** `/sig`: apply `Submit` to the addressed round, whoever submitted the
        bytes, with the hex decoder's output taken as is. */
    method Sig(req: Decoded<TransactionSubmission>) returns (out: SigOutcome)
      requires Valid()
      modifies SubmissionTarget(req)
      ensures Valid()
      ensures req.DecodeError? ==> out == SigRejected(JoinStatusResponse([], req.message))
      ensures req.Decoded? && req.value.id !in queue ==> out == SigPanicked
      ensures req.Decoded? && req.value.id in queue ==>
        && out == SigApplied
        && queue[req.value.id].State()
             == Submit(old(queue[req.value.id].State()), wallet.hexDecode(req.value.tx), wallet.txHash)
      ensures req.Decoded? ==>
        forall m :: m in queue && m != req.value.id ==> queue[m].State() == old(queue[m].State())
    {
      if req.DecodeError? {
        return SigRejected(JoinStatusResponse([], req.message));
      }
      var sig := req.value;
      var signed := wallet.hexDecode(sig.tx);
      if sig.id !in queue {
        return SigPanicked;
      }
      var q := queue[sig.id];
      ghost var before := q.State();
      q.tx := q.tx.(unsigned := signed);
      q.sid := q.sid + 1;
      if q.sid > Quorum {
        q.tx := q.tx.(signed := signed);
        q.tx := q.tx.(txId := wallet.txHash(q.tx.signed));
      }
      out := SigApplied;
      forall m | m in queue && m != sig.id
        ensures queue[m].State() == old(queue[m].State())
      {
        assert queue[m] != q;
      }
      SubmitKeepsRound(before, signed, wallet.txHash, sig.id, mixid);
      forall m | m in queue && m != sig.id
        ensures RoundValid(queue[m].State(), m, mixid)
      {
        assert RoundValid(old(queue[m].State()), m, mixid);
      }
    }

    /** `/complete/<round>/<participant>`: set the participant's completion
        flag (any id, registered or not) and attempt a broadcast on every call
        that finds at least `Quorum` flags set. */
    method Complete(mid: ParsedInt, pid: ParsedInt) returns (out: CompleteOutcome)
      requires Valid()
      modifies this`broadcasts, RoundAt(mid.value)
      ensures Valid()
      ensures mid.value !in queue ==> out == CompletePanicked && broadcasts == old(broadcasts)
      ensures mid.value in queue ==>
        var q := queue[mid.value];
        && q.State() == Mark(old(q.State()), pid.value)
        && out == Recorded(|Completed(q.cid)| >= Quorum)
        && broadcasts == old(broadcasts) +
             (if |Completed(q.cid)| >= Quorum then [Broadcast(mid.value, q.tx)] else [])
      ensures forall m :: m in queue && m != mid.value ==> queue[m].State() == old(queue[m].State())
    {
      var m, p := mid.value, pid.value;
      if m !in queue {
        return CompletePanicked;
      }
      var q := queue[m];
      ghost var before := q.State();
      q.cid := q.cid[p := true];
      var n := CountCompleted(q.cid);
      if n >= Quorum {
        broadcasts := broadcasts + [Broadcast(m, q.tx)];
      }
      out := Recorded(n >= Quorum);
      forall k | k in queue
        ensures RoundValid(queue[k].State(), k, mixid)
      {
        if queue[k] == q {
          MarkKeepsRound(before, p, k, mixid);
        }
      }
    }

    /** `/update/<round>`: the round's final signed bytes and id, which are
        empty until the cursor has passed `Quorum`. */
    method Update(mid: ParsedInt) returns (out: UpdateOutcome)
      requires Valid()
      ensures mid.value !in queue ==> out == UpdatePanicked
      ensures mid.value in queue ==>
        out == Updated(JoinUpdateResponse(TxResponse(queue[mid.value].tx.signed, queue[mid.value].tx.txId), ""))
      ensures out.Updated? && (out.reply.response.txId != "" || out.reply.response.signed != []) ==>
        queue[mid.value].sid > Quorum
    {
      var m := mid.value;
      if m !in queue {
        return UpdatePanicked;
      }
      var tx := queue[m].tx;
      out := Updated(JoinUpdateResponse(TxResponse(tx.signed, tx.txId), ""));
    }
  }
}
