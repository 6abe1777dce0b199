/**
 * The catch block of `mintToken`: the text it warns with for a caught error. An
 * error is seen through the three properties the block reads; each is
 * `undefined` or a value.
 */
module MintError {
  import opened Wrappers
  import opened JsString

  datatype CaughtError = CaughtError(msg: Option<string>, message: Option<string>, code: Option<int>)

  /**
   * What the block ends in: a warning text, or a `TypeError` thrown out of the
   * handler (with `isMinting` already cleared) when it reads `indexOf` of an
   * undefined `message`.
   */
  datatype Warning = Warn(text: string) | ThrowsTypeError

  const DEFAULT_MESSAGE := "Minting failed! Please try again!"
  const SOLD_OUT := "SOLD OUT!"
  const NOT_STARTED := "Minting period hasn't started yet."
  const INSUFFICIENT_FUNDS := "Insufficient funds to mint. Please fund your wallet."

  /** The program's error codes for "candy machine empty" and "not live yet". */
  const CODE_SOLD_OUT := 311
  const CODE_NOT_STARTED := 312

  /** The error thrown when the program's IDL cannot be fetched. */
  const IDL_MISSING := CaughtError(None, Some("Idl doesnt exist!"), None)

  /**
   * What the block does, stated without `indexOf`: with a truthy `msg` the code
   * decides; otherwise only a message that starts with "0x138" is rewritten.
   */
  function AsWrittenWarning(e: CaughtError): Warning {
    if StringTruthy(e.msg) then
      Warn(if e.code == Some(CODE_SOLD_OUT) then SOLD_OUT
           else if e.code == Some(CODE_NOT_STARTED) then NOT_STARTED
           else e.msg.value)
    else if e.message.None? then ThrowsTypeError
    else
      var m := e.message.value;
      Warn(if StartsWith(m, "0x138") then SOLD_OUT else if m == "" then DEFAULT_MESSAGE else m)
  }

  /** The catch block as written, up to `console.warn`. */
  method ClassifyMintError(error: CaughtError) returns (warning: Warning)
    ensures warning == AsWrittenWarning(error)
    // with a truthy msg, `message` plays no part
    ensures StringTruthy(error.msg) ==> forall other :: AsWrittenWarning(error.(message := other)) == warning
    ensures !StringTruthy(error.msg) && error.message.Some? ==>
              (warning == Warn(SOLD_OUT) <==> StartsWith(error.message.value, "0x138") || error.message.value == SOLD_OUT)
    // the insufficient-funds branch never fires: that text comes out only when the error carried it
    ensures warning == Warn(INSUFFICIENT_FUNDS) ==> error.msg == Some(INSUFFICIENT_FUNDS) || error.message == Some(INSUFFICIENT_FUNDS)
  {
    var message := Or(error.msg, Or(error.message, DEFAULT_MESSAGE));
    if !StringTruthy(error.msg) {
      if error.message.None? {
        return ThrowsTypeError;
      }
      var m := error.message.value;
      if NumberTruthy(IndexOf(m, "0x138")) {
      } else if NumberTruthy(IndexOf(m, "0x137")) {
        message := SOLD_OUT;
      } else if NumberTruthy(IndexOf(m, "0x135")) {
        message := INSUFFICIENT_FUNDS;
      }
    } else {
      if error.code == Some(CODE_SOLD_OUT) {
        message := SOLD_OUT;
      } else if error.code == Some(CODE_NOT_STARTED) {
        message := NOT_STARTED;
      }
    }
    return Warn(message);
  }

  /**
   * What the substring tests evidently mean: each branch fires when its error
   * code occurs in the message.
   */
  function IntendedWarning(e: CaughtError): Warning {
    if StringTruthy(e.msg) then AsWrittenWarning(e)
    else if e.message.None? then ThrowsTypeError
    else
      var m := e.message.value;
      var fallback := if m == "" then DEFAULT_MESSAGE else m;
      Warn(if Contains(m, "0x138") then fallback
           else if Contains(m, "0x137") then SOLD_OUT
           else if Contains(m, "0x135") then INSUFFICIENT_FUNDS
           else fallback)
  }

  /** The catch block with each test written as `indexOf(x) !== -1`. */
  method ClassifyMintErrorIntended(error: CaughtError) returns (warning: Warning)
    ensures warning == IntendedWarning(error)
    ensures !StringTruthy(error.msg) && error.message.Some? ==>
              var m := error.message.value;
              && (!Contains(m, "0x138") && Contains(m, "0x137") ==> warning == Warn(SOLD_OUT))
              && (!Contains(m, "0x138") && !Contains(m, "0x137") && Contains(m, "0x135") ==> warning == Warn(INSUFFICIENT_FUNDS))
              && (Contains(m, "0x138") ==> warning == Warn(m))
  {
    var message := Or(error.msg, Or(error.message, DEFAULT_MESSAGE));
    if !StringTruthy(error.msg) {
      if error.message.None? {
        return ThrowsTypeError;
      }
      var m := error.message.value;
      if IndexOf(m, "0x138") != -1 {
      } else if IndexOf(m, "0x137") != -1 {
        message := SOLD_OUT;
      } else if IndexOf(m, "0x135") != -1 {
        message := INSUFFICIENT_FUNDS;
      }
    } else {
      if error.code == Some(CODE_SOLD_OUT) {
        message := SOLD_OUT;
      } else if error.code == Some(CODE_NOT_STARTED) {
        message := NOT_STARTED;
      }
    }
    return Warn(message);
  }

  /**
   * The input that shows the defect: an unstructured error whose message carries
   * code 0x135 is passed through unchanged, where the intended reading reports
   * insufficient funds.
   */
  lemma AsWrittenMissesInsufficientFunds()
    ensures var e := CaughtError(None, Some("0x135"), None);
      AsWrittenWarning(e) == Warn("0x135") && IntendedWarning(e) == Warn(INSUFFICIENT_FUNDS)
  {
    var m := "0x135";
    assert OccursAt(m, "0x135", 0);
    forall i: nat | i <= |m| ensures !OccursAt(m, "0x138", i) && !OccursAt(m, "0x137", i) {
      if i == 0 { assert m[4] != "0x138"[4] && m[4] != "0x137"[4]; }
    }
  }
}
