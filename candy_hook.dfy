/**
 * The `useCandyMachine` hook's mutable state: the `isMinting` flag, set when a
 * mint starts and cleared by a caught error or by a status notification that
 * reports no error; and `mintToken`, which drives it.
 */
module CandyHook {
  import opened Wrappers
  import opened Solana
  import opened MintInstructions
  import opened MintError

  datatype TransactionError = TransactionError(reason: string)

  /** A signature notification: a `status` one carries `result.err`. */
  datatype Notification = SignatureStatus(err: Option<TransactionError>) | SignatureReceived

  /** The three things that touch the flag. */
  datatype Event = MintStarted | Notified(notification: Notification) | ErrorCaught

  /** The events that clear the flag. */
  predicate Clears(e: Event) {
    e.ErrorCaught? || (e.Notified? && e.notification.SignatureStatus? && e.notification.err.None?)
  }

  /** The flag after one event. */
  function Next(isMinting: bool, e: Event): bool {
    if e.MintStarted? then true else if Clears(e) then false else isMinting
  }

  /** The flag after a history of events, starting from `useState(false)`. */
  function After(events: seq<Event>): bool {
    if events == [] then false else Next(After(events[..|events| - 1]), events[|events| - 1])
  }

  /** Some mint has started and nothing has cleared the flag since. */
  ghost predicate InFlight(events: seq<Event>) {
    exists i :: 0 <= i < |events| && events[i].MintStarted? && forall j :: i < j < |events| ==> !Clears(events[j])
  }

  /** The flag is set exactly between a start and the next error or successful status. */
  lemma {:induction false} AfterIsInFlight(events: seq<Event>)
    ensures After(events) <==> InFlight(events)
    decreases |events|
  {
    if events != [] {
      var n := |events|;
      var init := events[..n - 1];
      var e := events[n - 1];
      AfterIsInFlight(init);
      if e.MintStarted? {
        assert events[n - 1].MintStarted?;
      } else if Clears(e) {
        assert !InFlight(events) by {
          forall i | 0 <= i < n && events[i].MintStarted? ensures exists j :: i < j < n && Clears(events[j]) {
            assert i < n - 1 && Clears(events[n - 1]);
          }
        }
      } else {
        if InFlight(init) {
          var i :| 0 <= i < n - 1 && init[i].MintStarted? && forall j :: i < j < n - 1 ==> !Clears(init[j]);
          assert events[i] == init[i];
          assert forall j :: i < j < n ==> !Clears(events[j]) by {
            forall j | i < j < n ensures !Clears(events[j]) {
              if j < n - 1 { assert events[j] == init[j]; }
            }
          }
        }
        if InFlight(events) {
          var i :| 0 <= i < n && events[i].MintStarted? && forall j :: i < j < n ==> !Clears(events[j]);
          assert i < n - 1;
          assert init[i] == events[i];
          assert forall j :: i < j < n - 1 ==> !Clears(init[j]) by {
            forall j | i < j < n - 1 ensures !Clears(init[j]) { assert init[j] == events[j]; }
          }
        }
      }
    }
  }

  /**
   * How a `mintToken` call ends: the request went out, or the catch block ran on
   * `error` and ended in `warning` (a `TypeError` there rejects `mintToken`'s promise).
   */
  datatype MintAttempt = Submitted(request: MintRequest, txn: string) | Caught(error: CaughtError, warning: Warning)

  /** The hook instance for one connected wallet. */
  class MintHook {
    const walletAddress: PublicKey
    var isMinting: bool
    /** Every event seen so far, oldest first. */
    ghost var events: seq<Event>

    ghost predicate Valid()
      reads this
    {
      isMinting == After(events)
    }

    constructor(walletAddress: PublicKey)
      ensures Valid() && events == [] && !isMinting
      ensures this.walletAddress == walletAddress
    {
      this.walletAddress := walletAddress;
      isMinting := false;
      events := [];
    }

    /**
     * The first statement of `mintToken`'s `try` (line 118): the flag is set.
     * Every `await` after it lets other events in, so the rest is `FinishMint`.
     */
    method StartMint()
      requires Valid()
      modifies this
      ensures Valid() && isMinting
      ensures events == old(events) + [MintStarted]
    {
      isMinting := true;
      events := events + [MintStarted];
    }

    /**
     * The rest of `mintToken`, up to the subscription, once its awaits have
     * settled: `rent`, `idl` and `submission` are the replies of the rent lookup,
     * the IDL fetch and `program.rpc.mintNft`; `mint` is the generated keypair's
     * public key. A submission leaves the flag as the events since `StartMint`
     * left it; any failure runs the catch block.
     */
    method FinishMint(derive: (Seeds, PublicKey) -> PublicKey, programs: Programs, cfg: Config, mint: PublicKey,
                      rent: Reply<nat, CaughtError>, idl: Reply<bool, CaughtError>,
                      submission: Reply<string, CaughtError>)
      returns (attempt: MintAttempt)
      requires Valid()
      modifies this
      ensures Valid()
      ensures attempt.Submitted? <==> rent.Replied? && idl == Replied(true) && submission.Replied?
      ensures attempt.Submitted? ==>
        && isMinting == old(isMinting)
        && events == old(events)
        && attempt.request == BuildMintRequest(derive, programs, cfg, walletAddress, mint, rent.value)
        && attempt.txn == submission.value
      ensures attempt.Caught? ==>
        && !isMinting
        && events == old(events) + [ErrorCaught]
        && attempt.error == (if rent.Threw? then rent.error
                             else if idl.Threw? then idl.error
                             else if !idl.value then IDL_MISSING
                             else submission.error)
        && attempt.warning == AsWrittenWarning(attempt.error)
    {
      if rent.Threw? {
        attempt := CatchError(rent.error);
        return;
      }
      var request := BuildMintRequest(derive, programs, cfg, walletAddress, mint, rent.value);
      if idl.Threw? {
        attempt := CatchError(idl.error);
        return;
      }
      if !idl.value {
        attempt := CatchError(IDL_MISSING);
        return;
      }
      if submission.Threw? {
        attempt := CatchError(submission.error);
        return;
      }
      attempt := Submitted(request, submission.value);
    }

    /** A whole `mintToken` call during which no other event arrives. */
    method MintToken(derive: (Seeds, PublicKey) -> PublicKey, programs: Programs, cfg: Config, mint: PublicKey,
                     rent: Reply<nat, CaughtError>, idl: Reply<bool, CaughtError>,
                     submission: Reply<string, CaughtError>)
      returns (attempt: MintAttempt)
      requires Valid()
      modifies this
      ensures Valid()
      ensures attempt.Submitted? <==> rent.Replied? && idl == Replied(true) && submission.Replied?
      ensures attempt.Submitted? ==>
        && isMinting
        && events == old(events) + [MintStarted]
        && attempt.request == BuildMintRequest(derive, programs, cfg, walletAddress, mint, rent.value)
        && attempt.txn == submission.value
      ensures attempt.Caught? ==>
        && !isMinting
        && events == old(events) + [MintStarted, ErrorCaught]
        && attempt.error == (if rent.Threw? then rent.error
                             else if idl.Threw? then idl.error
                             else if !idl.value then IDL_MISSING
                             else submission.error)
        && attempt.warning == AsWrittenWarning(attempt.error)
    {
      StartMint();
      attempt := FinishMint(derive, programs, cfg, mint, rent, idl, submission);
    }

    /**
     * The catch block: line 209 clears the flag whatever the error, then the
     * error is classified.
     */
    method CatchError(error: CaughtError) returns (attempt: MintAttempt)
      requires Valid()
      modifies this
      ensures Valid() && !isMinting
      ensures events == old(events) + [ErrorCaught]
      ensures attempt == Caught(error, AsWrittenWarning(error))
    {
      isMinting := false;
      events := events + [ErrorCaught];
      var warning := ClassifyMintError(error);
      attempt := Caught(error, warning);
    }

    /** The `onSignatureWithOptions` callback. */
    method OnSignatureNotification(notification: Notification)
      requires Valid()
      modifies this
      ensures Valid()
      ensures events == old(events) + [Notified(notification)]
      ensures isMinting == if notification.SignatureStatus? && notification.err.None? then false else old(isMinting)
    {
      if notification.SignatureStatus? {
        if notification.err.None? {
          isMinting := false;
        }
      }
      events := events + [Notified(notification)];
    }
  }
}
