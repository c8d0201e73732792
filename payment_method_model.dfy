/** The `payment_methods` table (backend/src/models/PaymentMethod.js). */
module PaymentMethodModel {
  import opened Wrappers

  /** The provider settings kept in the `config` JSON column. */
  datatype MethodConfig = MethodConfig(appId: string, key: string)

  /**
   * `methodType` is the `type` property the payment controller reads; the
   * table itself declares no such column. `feeRate` is DECIMAL(5,4), held in
   * ten-thousandths; the amounts are DECIMAL(10,2), held in cents.
   */
  datatype PaymentMethod = PaymentMethod(
    id: nat,
    name: string,
    code: string,
    config: MethodConfig,
    feeRate: int,
    minAmount: int,
    maxAmount: int,
    status: int,             // TINYINT: 1 enabled, 0 disabled
    sortOrder: int,
    methodType: string)

  predicate IsEnabled(m: PaymentMethod) {
    m.status == 1
  }

  /** DECIMAL(5,4) holds at most 9.9999. */
  predicate FitsDecimal5_4(x: int) {
    -99_999 <= x <= 99_999
  }

  /** A row inserted with only its required columns: enabled, free, accepting 0.00 up to 99999.99. */
  function NewPaymentMethod(id: nat, name: string, code: string, config: MethodConfig, methodType: string): (m: PaymentMethod)
    ensures IsEnabled(m) && m.feeRate == 0 && FitsDecimal5_4(m.feeRate)
    ensures m.minAmount == 0 && m.maxAmount == 9_999_999 && m.minAmount <= m.maxAmount
    ensures m.code == code
  {
    PaymentMethod(id, name, code, config, 0, 0, 9_999_999, 1, 0, methodType)
  }

  /** The unique index on `code`. */
  ghost predicate UniqueCodes(methods: seq<PaymentMethod>) {
    forall i, j :: 0 <= i < j < |methods| ==> methods[i].code != methods[j].code
  }

  /** `PaymentMethod.findByPk(id)`. */
  function FindMethod(methods: seq<PaymentMethod>, id: nat): (r: Option<PaymentMethod>)
    ensures r.Some? ==> r.value in methods && r.value.id == id
    ensures r.None? ==> forall i :: 0 <= i < |methods| ==> methods[i].id != id
  {
    if methods == [] then None
    else if methods[0].id == id then Some(methods[0])
    else FindMethod(methods[1..], id)
  }
}
