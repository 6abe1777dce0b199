/** The sale-state snapshot `getCandyMachineState` reads from the candy-machine account. */
module MachineState {
  import opened Wrappers

  /** The record the hook returns; replaced wholesale on every read. */
  datatype CandyMachineState = CandyMachineState(
    goLiveData: int,
    goLiveDateTimeString: string,
    itemsAvailable: int,
    itemsRedeemed: int,
    itemsRemaining: int)

  /**
   * The fields of the fetched candy-machine account after `toNumber()`: the
   * configured supply, the redeemed counter and the go-live time in seconds.
   */
  datatype CandyMachineAccount = CandyMachineAccount(itemsAvailable: nat, itemsRedeemed: nat, goLiveDate: int)

  /**
   * `getCandyMachineState`. `idl` is the reply of `Program.fetchIdl` (whether an
   * IDL was found) and `account` that of the candy-machine account fetch, which
   * runs only when an IDL was found. A rejection of either rejects the call;
   * a missing IDL gives `null`. `formatUtc` stands for
   * `new Date(ms).toUTCString()`. The remaining count is a plain difference: it
   * is negative when more items were redeemed than are available.
   */
  function GetCandyMachineState<E>(idl: Reply<bool, E>, account: Reply<CandyMachineAccount, E>,
                                   formatUtc: int -> string): (r: Reply<Option<CandyMachineState>, E>)
    ensures r.Threw? <==> idl.Threw? || (idl == Replied(true) && account.Threw?)
    ensures r.Threw? ==> r.error == if idl.Threw? then idl.error else account.error
    ensures r == Replied(None) <==> idl == Replied(false)
    ensures r.Replied? && r.value.Some? ==>
      var s := r.value.value;
      && account.Replied?
      && s.itemsAvailable == account.value.itemsAvailable
      && s.itemsRedeemed == account.value.itemsRedeemed
      && s.goLiveData == account.value.goLiveDate
      && s.goLiveDateTimeString == formatUtc(account.value.goLiveDate * 1000)
      && s.itemsRedeemed + s.itemsRemaining == s.itemsAvailable
      && (s.itemsRemaining == 0 <==> s.itemsRedeemed == s.itemsAvailable)
      && (s.itemsRemaining < 0 <==> s.itemsRedeemed > s.itemsAvailable)
  {
    if idl.Threw? then Threw(idl.error)
    else if !idl.value then Replied(None)
    else if account.Threw? then Threw(account.error)
    else
      var candyMachine := account.value;
      var itemsAvailable := candyMachine.itemsAvailable;
      var itemsRedeemed := candyMachine.itemsRedeemed;
      var itemsRemaining := itemsAvailable - itemsRedeemed;
      var goLiveData := candyMachine.goLiveDate;
      var goLiveDateTimeString := formatUtc(goLiveData * 1000);
      Replied(Some(CandyMachineState(goLiveData, goLiveDateTimeString, itemsAvailable, itemsRedeemed, itemsRemaining)))
  }
}
