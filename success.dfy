/**
 * The payment success page: the order number shown to the customer is
 * derived from the session id in the query string.
 */
module SuccessPage {

  import opened Common
  import opened Text

  /** `sessionId ? sessionId.slice(-8).toUpperCase() : "PENDING"`. */
  function OrderNumber(sessionId: Option<string>): (r: string)
    ensures !Truthy(sessionId) ==> r == "PENDING"
    ensures Truthy(sessionId) ==> r == ToUpper(TakeLast(sessionId.value, 8))
  {
    if Truthy(sessionId) then ToUpper(TakeLast(sessionId.value, 8)) else "PENDING"
  }

  /**
   * For a present id: at most eight characters, exactly eight when the id
   * has at least eight, each the upper-cased character at the same place
   * from the end of the id.
   */
  lemma OrderNumberShape(id: string)
    requires id != ""
    ensures var r := OrderNumber(Some(id));
      && |r| <= 8
      && (|id| >= 8 <==> |r| == 8)
      && forall i :: 0 <= i < |r| ==> r[i] == UpperChar(id[|id| - |r| + i])
  {
  }

  /** A short id is shown whole, upper-cased. */
  lemma ShortIdKeptWhole(id: string)
    requires 0 < |id| < 8
    ensures OrderNumber(Some(id)) == ToUpper(id)
  {
  }

  /** Example: a typical session id ends in its last eight characters, upper-cased. */
  lemma OrderNumberExample()
    ensures OrderNumber(Some("cs_test_a1b2c3d4e5")) == "B2C3D4E5"
    ensures OrderNumber(None) == "PENDING" && OrderNumber(Some("")) == "PENDING"
  {
    var r := OrderNumber(Some("cs_test_a1b2c3d4e5"));
    assert TakeLast("cs_test_a1b2c3d4e5", 8) == "b2c3d4e5";
    assert r[0] == 'B' && r[1] == '2' && r[2] == 'C' && r[3] == '3';
    assert r[4] == 'D' && r[5] == '4' && r[6] == 'E' && r[7] == '5';
  }
}
