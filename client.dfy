/** The participant side of a joint funding (client/join.go): the check a
    participant runs on the draft before signing it (`verifyTx`), and the
    sign/complete decisions of its two polling loops (`waitToSign`,
    `waitForCompleteTx`, `complete`) as a step function over poll results. */
module Client {
  import opened Types

  // ---------------------------------------------------------------------
  // The output check

  /** The result of `verifyTx`. The two "Can not find output in transaction"
      errors are told apart here; `ScriptTooShort` is the index panic of
      slicing a locking script shorter than two bytes. */
  datatype Verdict =
    | Verified
    | AddressUndecodable
    | AmountMismatch
    | NoOutput
    | ScriptTooShort

  /** The script bytes an address pays to (`btcutil.DecodeAddress` followed
      by `ScriptAddress`), or None when the address does not decode. */
  type ScriptOf = string -> Option<seq<byte>>

  /** The inner loop for one recipient: walk the outputs in order, decoding
      the address at every step; the first output whose script from byte 2
      on is the address's script decides, by its value. */
  function CheckRecipient(r: TxRecipient, outs: seq<TxOut>, scriptOf: ScriptOf): (v: Verdict)
    ensures v == Verified ==>
      exists j :: 0 <= j < |outs| && |outs[j].pkScript| >= 2
        && scriptOf(r.address) == Some(outs[j].pkScript[2..]) && outs[j].value == r.amount
    decreases |outs|
  {
    if outs == [] then NoOutput
    else if scriptOf(r.address).None? then AddressUndecodable
    else if |outs[0].pkScript| < 2 then ScriptTooShort
    else if outs[0].pkScript[2..] == scriptOf(r.address).value then
      (if r.amount != outs[0].value then AmountMismatch else Verified)
    else CheckRecipient(r, outs[1..], scriptOf)
  }

  /** The outer loop: recipients in order, the first failure wins. */
  function VerifyOutputs(recipients: seq<TxRecipient>, outs: seq<TxOut>, scriptOf: ScriptOf): (v: Verdict)
    ensures v == Verified <==>
      forall k :: 0 <= k < |recipients| ==> CheckRecipient(recipients[k], outs, scriptOf) == Verified
    ensures v != Verified ==>
      exists k :: 0 <= k < |recipients| && CheckRecipient(recipients[k], outs, scriptOf) == v
    decreases |recipients|
  {
    if recipients == [] then Verified
    else
      var v := CheckRecipient(recipients[0], outs, scriptOf);
      if v != Verified then v else VerifyOutputs(recipients[1..], outs, scriptOf)
  }

  /** `verifyTx` on the outputs of the deserialized draft. */
  method VerifyTx(recipients: seq<TxRecipient>, outs: seq<TxOut>, scriptOf: ScriptOf) returns (v: Verdict)
    ensures v == VerifyOutputs(recipients, outs, scriptOf)
  {
    var i := 0;
    while i < |recipients|
      invariant 0 <= i <= |recipients|
      invariant VerifyOutputs(recipients, outs, scriptOf) == VerifyOutputs(recipients[i..], outs, scriptOf)
    {
      var r := recipients[i];
      assert recipients[i..][0] == r && recipients[i..][1..] == recipients[i + 1..];
      var vout := -1;
      var j := 0;
      while j < |outs|
        invariant 0 <= j <= |outs|
        invariant vout == -1
        invariant CheckRecipient(r, outs, scriptOf) == CheckRecipient(r, outs[j..], scriptOf)
      {
        assert outs[j..][0] == outs[j] && outs[j..][1..] == outs[j + 1..];
        var script := scriptOf(r.address);
        if script.None? {
          return AddressUndecodable;
        }
        if |outs[j].pkScript| < 2 {
          return ScriptTooShort;
        }
        if outs[j].pkScript[2..] == script.value {
          if r.amount != outs[j].value {
            return AmountMismatch;
          }
          vout := j;
          break;
        }
        j := j + 1;
      }
      if vout == -1 {
        return NoOutput;
      }
      i := i + 1;
    }
    return Verified;
  }

  /** Output `j` is the first output whose script matches the recipient's
      decodable address, every output before it being long enough to slice. */
  ghost predicate FirstMatch(r: TxRecipient, outs: seq<TxOut>, scriptOf: ScriptOf, j: int)
  {
    && scriptOf(r.address).Some?
    && 0 <= j < |outs|
    && (forall i :: 0 <= i < j ==> |outs[i].pkScript| >= 2 && outs[i].pkScript[2..] != scriptOf(r.address).value)
    && |outs[j].pkScript| >= 2
    && outs[j].pkScript[2..] == scriptOf(r.address).value
  }

  /** The recipient's first matching output pays exactly the requested amount. */
  ghost predicate PaidExactly(r: TxRecipient, outs: seq<TxOut>, scriptOf: ScriptOf)
  {
    exists j :: FirstMatch(r, outs, scriptOf, j) && outs[j].value == r.amount
  }

  lemma {:induction false} FirstMatchTail(r: TxRecipient, outs: seq<TxOut>, scriptOf: ScriptOf, j: int)
    requires outs != [] && scriptOf(r.address).Some?
    requires |outs[0].pkScript| >= 2 && outs[0].pkScript[2..] != scriptOf(r.address).value
    ensures FirstMatch(r, outs, scriptOf, j + 1) <==> FirstMatch(r, outs[1..], scriptOf, j)
  {
    if FirstMatch(r, outs[1..], scriptOf, j) {
      forall i | 0 <= i < j + 1
        ensures |outs[i].pkScript| >= 2 && outs[i].pkScript[2..] != scriptOf(r.address).value
      {
        if i > 0 {
          assert outs[i] == outs[1..][i - 1];
        }
      }
    }
    if FirstMatch(r, outs, scriptOf, j + 1) {
      forall i | 0 <= i < j
        ensures |outs[1..][i].pkScript| >= 2 && outs[1..][i].pkScript[2..] != scriptOf(r.address).value
      {
        assert outs[1..][i] == outs[i + 1];
      }
    }
  }

  /** One recipient passes exactly when its first matching output pays the
      requested amount. */
  lemma {:induction false} CheckRecipientMeaning(r: TxRecipient, outs: seq<TxOut>, scriptOf: ScriptOf)
    ensures CheckRecipient(r, outs, scriptOf) == Verified <==> PaidExactly(r, outs, scriptOf)
    decreases |outs|
  {
    if outs == [] || scriptOf(r.address).None? {
    } else if |outs[0].pkScript| < 2 {
      forall j | 0 < j < |outs|
        ensures !FirstMatch(r, outs, scriptOf, j)
      {
        assert |outs[0].pkScript| < 2;
      }
    } else if outs[0].pkScript[2..] == scriptOf(r.address).value {
      assert FirstMatch(r, outs, scriptOf, 0);
      if PaidExactly(r, outs, scriptOf) {
        var j :| FirstMatch(r, outs, scriptOf, j) && outs[j].value == r.amount;
        assert j == 0;
      }
    } else {
      CheckRecipientMeaning(r, outs[1..], scriptOf);
      if PaidExactly(r, outs, scriptOf) {
        var j :| FirstMatch(r, outs, scriptOf, j) && outs[j].value == r.amount;
        assert j != 0;
        FirstMatchTail(r, outs, scriptOf, j - 1);
        assert outs[1..][j - 1] == outs[j];
      }
      if PaidExactly(r, outs[1..], scriptOf) {
        var j :| FirstMatch(r, outs[1..], scriptOf, j) && outs[1..][j].value == r.amount;
        FirstMatchTail(r, outs, scriptOf, j);
        assert outs[1..][j] == outs[j + 1];
      }
    }
  }

  /** `verifyTx` succeeds exactly when every recipient's first matching
      output pays its amount; in particular it succeeds on no recipients. */
  lemma {:induction false} VerifyOutputsMeaning(recipients: seq<TxRecipient>, outs: seq<TxOut>, scriptOf: ScriptOf)
    ensures VerifyOutputs(recipients, outs, scriptOf) == Verified
        <==> forall k :: 0 <= k < |recipients| ==> PaidExactly(recipients[k], outs, scriptOf)
    decreases |recipients|
  {
    if recipients != [] {
      CheckRecipientMeaning(recipients[0], outs, scriptOf);
      VerifyOutputsMeaning(recipients[1..], outs, scriptOf);
      if forall k :: 0 <= k < |recipients| ==> PaidExactly(recipients[k], outs, scriptOf) {
        forall k | 0 <= k < |recipients| - 1
          ensures PaidExactly(recipients[1..][k], outs, scriptOf)
        {
          assert recipients[1..][k] == recipients[k + 1];
        }
      }
      if VerifyOutputs(recipients, outs, scriptOf) == Verified {
        forall k | 0 <= k < |recipients|
          ensures PaidExactly(recipients[k], outs, scriptOf)
        {
          if k > 0 {
            assert recipients[k] == recipients[1..][k - 1];
          }
        }
      }
    }
  }

  /** Only the first matching output is looked at: a wrong amount there is a
      failure even when a later output pays the amount exactly. */
  lemma {:induction false} FirstMatchDecides(r: TxRecipient, outs: seq<TxOut>, scriptOf: ScriptOf, j: int)
    requires FirstMatch(r, outs, scriptOf, j) && outs[j].value != r.amount
    ensures CheckRecipient(r, outs, scriptOf) == AmountMismatch
    decreases |outs|
  {
    if j > 0 {
      FirstMatchTail(r, outs, scriptOf, j - 1);
      assert outs[1..][j - 1] == outs[j];
      FirstMatchDecides(r, outs[1..], scriptOf, j - 1);
    }
  }

  /** A recipient whose script no output carries fails the check. */
  lemma {:induction false} NoMatchFails(r: TxRecipient, outs: seq<TxOut>, scriptOf: ScriptOf)
    requires scriptOf(r.address).Some?
    requires forall i :: 0 <= i < |outs| ==> |outs[i].pkScript| >= 2 && outs[i].pkScript[2..] != scriptOf(r.address).value
    ensures CheckRecipient(r, outs, scriptOf) == NoOutput
    decreases |outs|
  {
    if outs != [] {
      assert forall i :: 0 <= i < |outs| - 1 ==> outs[1..][i] == outs[i + 1];
      NoMatchFails(r, outs[1..], scriptOf);
    }
  }

  /** An undecodable recipient address fails the check as soon as the draft
      has an output (with none, the output search fails first). */
  lemma UndecodableFails(recipients: seq<TxRecipient>, outs: seq<TxOut>, scriptOf: ScriptOf, k: int)
    requires 0 <= k < |recipients| && scriptOf(recipients[k].address).None?
    ensures VerifyOutputs(recipients, outs, scriptOf) != Verified
    ensures outs != [] && (forall i :: 0 <= i < k ==> CheckRecipient(recipients[i], outs, scriptOf) == Verified)
            ==> VerifyOutputs(recipients, outs, scriptOf) == AddressUndecodable
  {
    VerifyOutputsMeaning(recipients, outs, scriptOf);
    CheckRecipientMeaning(recipients[k], outs, scriptOf);
    if outs != [] && forall i :: 0 <= i < k ==> CheckRecipient(recipients[i], outs, scriptOf) == Verified {
      PrefixVerified(recipients, outs, scriptOf, k);
      assert recipients[k..][0] == recipients[k];
    }
  }

  /** When the first `k` recipients pass, the check's verdict is the one of
      the rest. */
  lemma {:induction false} PrefixVerified(recipients: seq<TxRecipient>, outs: seq<TxOut>, scriptOf: ScriptOf, k: int)
    requires 0 <= k <= |recipients|
    requires forall i :: 0 <= i < k ==> CheckRecipient(recipients[i], outs, scriptOf) == Verified
    ensures VerifyOutputs(recipients, outs, scriptOf) == VerifyOutputs(recipients[k..], outs, scriptOf)
    decreases k
  {
    if k > 0 {
      assert recipients[1..][k - 1..] == recipients[k..];
      assert forall i :: 0 <= i < k - 1 ==> recipients[1..][i] == recipients[i + 1];
      PrefixVerified(recipients[1..], outs, scriptOf, k - 1);
    }
  }

  /** An output none of the recipients' scripts matches. */
  ghost predicate Unmatched(o: TxOut, recipients: seq<TxRecipient>, scriptOf: ScriptOf)
  {
    && |o.pkScript| >= 2
    && forall k :: 0 <= k < |recipients| && scriptOf(recipients[k].address).Some?
         ==> o.pkScript[2..] != scriptOf(recipients[k].address).value
  }

  lemma {:induction false} InsertUnmatchedRecipient(r: TxRecipient, outs: seq<TxOut>, o: TxOut, at: int, scriptOf: ScriptOf)
    requires 0 <= at <= |outs| && outs != []
    requires |o.pkScript| >= 2
    requires scriptOf(r.address).Some? ==> o.pkScript[2..] != scriptOf(r.address).value
    ensures CheckRecipient(r, outs[..at] + [o] + outs[at..], scriptOf) == CheckRecipient(r, outs, scriptOf)
    decreases |outs|
  {
    var outs' := outs[..at] + [o] + outs[at..];
    if at == 0 {
      assert outs'[1..] == outs;
    } else {
      assert outs'[0] == outs[0];
      if |outs| > 1 {
        assert outs'[1..] == outs[1..][..at - 1] + [o] + outs[1..][at - 1..];
        InsertUnmatchedRecipient(r, outs[1..], o, at - 1, scriptOf);
      } else {
        assert outs'[1..] == [o];
        assert [o][1..] == [];
      }
    }
  }

  /** Outputs that pay none of the recipients never change the verdict, on
      a draft that already has an output. */
  lemma {:induction false} UnmatchedOutputIrrelevant(recipients: seq<TxRecipient>, outs: seq<TxOut>, o: TxOut, at: int, scriptOf: ScriptOf)
    requires 0 <= at <= |outs| && outs != []
    requires Unmatched(o, recipients, scriptOf)
    ensures VerifyOutputs(recipients, outs[..at] + [o] + outs[at..], scriptOf) == VerifyOutputs(recipients, outs, scriptOf)
    decreases |recipients|
  {
    if recipients != [] {
      InsertUnmatchedRecipient(recipients[0], outs, o, at, scriptOf);
      assert Unmatched(o, recipients[1..], scriptOf) by {
        forall k | 0 <= k < |recipients| - 1 && scriptOf(recipients[1..][k].address).Some?
          ensures o.pkScript[2..] != scriptOf(recipients[1..][k].address).value
        {
          assert recipients[1..][k] == recipients[k + 1];
        }
      }
      UnmatchedOutputIrrelevant(recipients[1..], outs, o, at, scriptOf);
    }
  }

  // ---------------------------------------------------------------------
  // The sign/complete gating of the polling loops

  /** What a participant knows after `joinmulti_start`: its round, its
      participant id and the funding request it sent. */
  datatype Participant = Participant(id: int, pid: int, info: FundingInfo)

  /** The wallet and node calls the client makes; their internals are not
      part of this model. */
  datatype ClientCalls = ClientCalls(
    /** `wire.MsgTx.Deserialize` of the draft, its error ignored: the outputs. */
    outputsOf: seq<byte> -> seq<TxOut>,
    /** Address decoding, as `verifyTx` uses it. */
    scriptOf: ScriptOf,
    /** `Wally.Sign` of the draft with the participant's inputs, then the
        transaction's text form as it is submitted. */
    sign: (seq<byte>, seq<Utxo>) -> string)

  /** Where the participant is: polling `/status/` for its turn, polling
      `/update/` for the final transaction, or stopped (`Done` after the
      completion step, `Stopped` after a failed request or a rejected
      draft, `Crashed` after a panic in the output check). */
  datatype Phase = Signing | Settling | Done | Stopped | Crashed

  /** A `/status/` poll: the request or its decoding failed, or a draft
      (possibly empty) came back. */
  datatype StatusPoll = StatusFailed | StatusReceived(tx: seq<byte>)

  /** An `/update/` poll: the request or its decoding failed, or a reply
      came back, with or without a response record. */
  datatype UpdatePoll = UpdateFailed | UpdateReceived(response: Option<TxResponse>)

  /** One tick of the running loop, with the outcome of the foreign calls it
      makes: whether the signature POST went through, and whether
      `CompleteChannels` succeeded. */
  datatype Tick =
    | StatusTick(status: StatusPoll, posted: bool)
    | UpdateTick(update: UpdatePoll, completed: bool)

  /** What a tick sends to the coordinator. */
  datatype Effect = NoEffect | SubmitSignature(submission: TransactionSubmission) | NotifyComplete(id: int, pid: int)

  predicate Terminal(phase: Phase)
  {
    phase == Done || phase == Stopped || phase == Crashed
  }

  /** One tick. A non-empty draft is checked; a passing one is signed and
      submitted, and settling starts if the submission went through; any
      other verdict stops the loop without a submission. A final
      transaction id triggers the completion step, which notifies the
      coordinator only when the channels completed. The phase never moves
      back, and a stopped loop stays stopped and sends nothing. */
  function Step(p: Participant, calls: ClientCalls, phase: Phase, tick: Tick): (r: (Phase, Effect))
    ensures Rank(phase) <= Rank(r.0)
    ensures Terminal(phase) ==> r == (phase, NoEffect)
  {
    match (phase, tick)
    case (Signing, StatusTick(StatusFailed, _)) => (Stopped, NoEffect)
    case (Signing, StatusTick(StatusReceived(tx), posted)) =>
      if |tx| == 0 then (Signing, NoEffect)
      else
        var v := VerifyOutputs(p.info.recipients, calls.outputsOf(tx), calls.scriptOf);
        if v == ScriptTooShort then (Crashed, NoEffect)
        else if v != Verified then (Stopped, NoEffect)
        else
          (if posted then Settling else Stopped,
           SubmitSignature(TransactionSubmission(calls.sign(tx, p.info.utxos), p.id, p.pid)))
    case (Settling, UpdateTick(UpdateFailed, _)) => (Stopped, NoEffect)
    case (Settling, UpdateTick(UpdateReceived(response), completed)) =>
      if response.Some? && response.value.txId != "" then
        (Done, if completed then NotifyComplete(p.id, p.pid) else NoEffect)
      else (Settling, NoEffect)
    case _ => (phase, NoEffect)
  }

  /** A draft is submitted only when it is non-empty and passed the check,
      and then it is the participant's own signature for its own round. */
  lemma StepSubmits(p: Participant, calls: ClientCalls, phase: Phase, tick: Tick)
    ensures var (next, e) := Step(p, calls, phase, tick);
      && (e.SubmitSignature? <==>
            && phase == Signing && tick.StatusTick? && tick.status.StatusReceived?
            && |tick.status.tx| > 0
            && VerifyOutputs(p.info.recipients, calls.outputsOf(tick.status.tx), calls.scriptOf) == Verified)
      && (e.SubmitSignature? ==>
            e.submission == TransactionSubmission(calls.sign(tick.status.tx, p.info.utxos), p.id, p.pid))
  {
  }

  /** The coordinator is told of completion only on a non-empty final
      transaction id, and only after the channels completed. */
  lemma StepNotifies(p: Participant, calls: ClientCalls, phase: Phase, tick: Tick)
    ensures var (next, e) := Step(p, calls, phase, tick);
      && (e.NotifyComplete? <==>
            && phase == Settling && tick.UpdateTick? && tick.update.UpdateReceived?
            && tick.update.response.Some? && tick.update.response.value.txId != ""
            && tick.completed)
      && (e.NotifyComplete? ==> e == NotifyComplete(p.id, p.pid))
  {
  }

  /** The loops in sequence over a run of ticks: the final phase and what
      each tick sent. */
  function Run(p: Participant, calls: ClientCalls, phase: Phase, ticks: seq<Tick>): (r: (Phase, seq<Effect>))
    ensures |r.1| == |ticks|
    ensures Rank(phase) <= Rank(r.0)
    decreases |ticks|
  {
    if ticks == [] then (phase, [])
    else
      var (next, e) := Step(p, calls, phase, ticks[0]);
      var (last, es) := Run(p, calls, next, ticks[1..]);
      (last, [e] + es)
  }

  function Submissions(es: seq<Effect>): nat
  {
    if es == [] then 0 else (if es[0].SubmitSignature? then 1 else 0) + Submissions(es[1..])
  }

  function Notifications(es: seq<Effect>): nat
  {
    if es == [] then 0 else (if es[0].NotifyComplete? then 1 else 0) + Notifications(es[1..])
  }

  /** How far a phase is along: signing, then settling, then stopped. */
  function Rank(phase: Phase): nat
  {
    match phase
    case Signing => 0
    case Settling => 1
    case _ => 2
  }

  /** A submission leaves signing, and a completion report ends the loop. */
  lemma StepAdvances(p: Participant, calls: ClientCalls, phase: Phase, tick: Tick)
    ensures var (next, e) := Step(p, calls, phase, tick);
      && (e.SubmitSignature? ==> Rank(next) > 0)
      && (e.NotifyComplete? ==> Terminal(next))
  {
  }

  /** A stopped participant stays stopped and sends nothing. */
  lemma {:induction false} TerminalIsFinal(p: Participant, calls: ClientCalls, phase: Phase, ticks: seq<Tick>)
    requires Terminal(phase)
    ensures Run(p, calls, phase, ticks).0 == phase
    ensures forall i :: 0 <= i < |ticks| ==> Run(p, calls, phase, ticks).1[i] == NoEffect
    decreases |ticks|
  {
    if ticks != [] {
      TerminalIsFinal(p, calls, phase, ticks[1..]);
    }
  }

  /** A participant submits at most one signature and notifies completion
      at most once; past signing it submits none, and once stopped it
      notifies nothing. */
  lemma {:induction false} RunAtMostOnce(p: Participant, calls: ClientCalls, phase: Phase, ticks: seq<Tick>)
    ensures Submissions(Run(p, calls, phase, ticks).1) <= (if phase == Signing then 1 else 0)
    ensures Notifications(Run(p, calls, phase, ticks).1) <= (if Terminal(phase) then 0 else 1)
    decreases |ticks|
  {
    if ticks != [] {
      var (next, e) := Step(p, calls, phase, ticks[0]);
      StepAdvances(p, calls, phase, ticks[0]);
      RunAtMostOnce(p, calls, next, ticks[1..]);
      var es := Run(p, calls, next, ticks[1..]).1;
      assert Run(p, calls, phase, ticks).1 == [e] + es;
      assert ([e] + es)[1..] == es;
    }
  }

  /** Every submission in a run signs a non-empty draft that passed the
      output check. */
  lemma {:induction false} RunSubmitsVerified(p: Participant, calls: ClientCalls, phase: Phase, ticks: seq<Tick>, i: int)
    requires 0 <= i < |ticks| && Run(p, calls, phase, ticks).1[i].SubmitSignature?
    ensures ticks[i].StatusTick? && ticks[i].status.StatusReceived? && |ticks[i].status.tx| > 0
    ensures VerifyOutputs(p.info.recipients, calls.outputsOf(ticks[i].status.tx), calls.scriptOf) == Verified
    decreases |ticks|
  {
    var (next, e) := Step(p, calls, phase, ticks[0]);
    StepSubmits(p, calls, phase, ticks[0]);
    if i > 0 {
      assert Run(p, calls, phase, ticks).1[i] == Run(p, calls, next, ticks[1..]).1[i - 1];
      RunSubmitsVerified(p, calls, next, ticks[1..], i - 1);
      assert ticks[1..][i - 1] == ticks[i];
    }
  }

  /** Started at signing, a run notifies completion only after it has
      submitted its signature. */
  lemma {:induction false} NotifyAfterSubmit(p: Participant, calls: ClientCalls, phase: Phase, ticks: seq<Tick>, i: int)
    requires phase == Signing || phase == Settling
    requires 0 <= i < |ticks| && Run(p, calls, phase, ticks).1[i].NotifyComplete?
    ensures phase == Settling || exists k :: 0 <= k < i && Run(p, calls, phase, ticks).1[k].SubmitSignature?
    decreases |ticks|
  {
    var (next, e) := Step(p, calls, phase, ticks[0]);
    StepNotifies(p, calls, phase, ticks[0]);
    StepAdvances(p, calls, phase, ticks[0]);
    var es := Run(p, calls, phase, ticks).1;
    assert es[0] == e;
    if i > 0 && phase == Signing {
      if e.SubmitSignature? {
        assert es[0].SubmitSignature?;
      } else {
        assert es[i] == Run(p, calls, next, ticks[1..]).1[i - 1];
        if Terminal(next) {
          TerminalIsFinal(p, calls, next, ticks[1..]);
        } else {
          NotifyAfterSubmit(p, calls, next, ticks[1..], i - 1);
          var k :| 0 <= k < i - 1 && Run(p, calls, next, ticks[1..]).1[k].SubmitSignature?;
          assert es[k + 1] == Run(p, calls, next, ticks[1..]).1[k];
        }
      }
    }
  }
}
