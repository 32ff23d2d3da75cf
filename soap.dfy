/**
 * The SOAP request builder (includes/wc-taxify-soap-api.php).
 *
 * Each public call rebuilds `$this->request` from nothing and hands it to
 * `request()`, which sends it through the one SOAP client the object keeps.
 * The remote service is an oracle: the n-th exchange has outcome
 * `oracle(n)`, an answer, a fault thrown by the call, or a fault thrown while
 * the client is being constructed.
 */
module SoapApi {
  import opened Php

  /** One `TaxLineDetail` of a CalculateTax answer. */
  datatype Detail = Detail(itemKey: string, lineNumber: int, amount: int)

  /** SOAP decodes one detail as an object and several as an array. */
  datatype Details = One(d: Detail) | Many(ds: seq<Detail>)

  /**
   * What a call returns when it does not throw: either an object without the
   * expected `...Result` member, or a result with its `ResponseStatus`,
   * `SalesTaxAmount` (cents), details, `Codes->string` and error message.
   */
  datatype Response =
    | NoResult
    | Reply(status: string, salesTaxAmount: int, details: Details, codes: seq<string>, errorMessage: string)

  datatype Outcome = Answer(r: Response) | CallFault | ConnectFault

  /** A request that reached the transport. */
  datatype Call = Call(op: string, body: seq<Entry>)

  /** The same call in the plugin's terms: which API method, with which arguments. */
  datatype ApiCall =
    | CalculateCall(data: seq<Entry>, lines: seq<Entry>, refunds: seq<Entry>, today: string)
    | CancelCall(documentKey: Value)
    | CommitCall(data: seq<Entry>)
    | VersionCall
    | VerifyCall(address: seq<Entry>)
    | CodesCall

  /** `$result->...Result->ResponseStatus == $s`. */
  predicate StatusIs(r: Response, s: string)
  {
    r.Reply? && r.status == s
  }

  /** `! empty( ...->TaxLineDetails->TaxLineDetail )`. */
  predicate HasDetails(r: Response)
  {
    r.Reply? && (r.details.One? || |r.details.ds| > 0)
  }

  /** `! empty( $data[ $k ] ) ? $data[ $k ] : ''`. */
  function Field(data: seq<Entry>, k: string): (r: Value)
    ensures Empty(Get(VArr(data), k)) ==> r == VStr("")
    ensures !Empty(Get(VArr(data), k)) ==> r == Get(VArr(data), k)
  {
    var x := Get(VArr(data), k);
    if Empty(x) then VStr("") else x
  }

  /** `! empty( $key ) ? store_prefix . '-' . $key : ''`. */
  function Prefixed(prefix: string, key: Value): (r: Value)
    ensures Empty(key) <==> r == VStr("")
    ensures !Empty(key) ==> r == VStr(prefix + "-" + ToStr(key))
  {
    if Empty(key) then VStr("") else VStr(prefix + "-" + ToStr(key))
  }

  /** Request keys and the `$data` keys they are read from. */
  const OriginFields: seq<(string, string)> := [
    ("Company", "origin_company"), ("Street1", "origin_address_1"),
    ("Street2", "origin_address_2"), ("City", "origin_city"),
    ("Region", "origin_state"), ("PostalCode", "origin_zip"),
    ("Country", "origin_country"), ("Email", "origin_email"),
    ("Phone", "origin_phone")]

  const DestinationFields: seq<(string, string)> := [
    ("FirstName", "destination_first_name"), ("LastName", "destination_last_name"),
    ("Company", "destination_company"), ("Street1", "destination_address_1"),
    ("Street2", "destination_address_2"), ("City", "destination_city"),
    ("Region", "destination_state"), ("PostalCode", "destination_zip"),
    ("Country", "destination_country"), ("Email", "destination_email"),
    ("Phone", "destination_phone")]

  const DiscountFields: seq<(string, string)> := [
    ("Order", "discount_order"), ("Code", "discount_code"),
    ("Amount", "discount_amount"), ("DiscountType", "discount_discount_type")]

  const VerifyFields: seq<(string, string)> := [
    ("Street1", "address_1"), ("Street2", "address_2"), ("City", "city"),
    ("Region", "state"), ("PostalCode", "zip"), ("Country", "country")]

  /** Writing `$block[ name ] = ! empty( $data[ key ] ) ? $data[ key ] : ''` for each pair in turn. */
  function PutFields(block: seq<Entry>, data: seq<Entry>, fields: seq<(string, string)>): seq<Entry>
    decreases |fields|
  {
    if |fields| == 0 then block
    else PutFields(Put(block, SK(fields[0].0), Field(data, fields[0].1)), data, fields[1..])
  }

  /** The `$data` key of the last pair that writes `name`. */
  function LastSource(fields: seq<(string, string)>, name: string): Option<string>
    decreases |fields|
  {
    if |fields| == 0 then None
    else
      var rest := LastSource(fields[1..], name);
      if rest.Some? then rest else if fields[0].0 == name then Some(fields[0].1) else None
  }

  /** After the writes each name holds the field its last pair reads; other keys are unchanged. */
  lemma {:induction false} PutFieldsLookup(block: seq<Entry>, data: seq<Entry>, fields: seq<(string, string)>, k: Key)
    ensures Lookup(PutFields(block, data, fields), k) ==
      if k.SK? && LastSource(fields, k.s).Some? then Some(Field(data, LastSource(fields, k.s).value))
      else Lookup(block, k)
    decreases |fields|
  {
    if |fields| > 0 {
      PutFieldsLookup(Put(block, SK(fields[0].0), Field(data, fields[0].1)), data, fields[1..], k);
    }
  }

  /** The credentials block. */
  function Security(partnerKey: string, apiKey: string): Value
  {
    VArr([Entry(SK("PartnerKey"), VStr(partnerKey)), Entry(SK("Password"), VStr(apiKey))])
  }

  /** `Discounts.Discount`: the refunds, then the discount keys when `discount_amount` is non-empty. */
  function DiscountList(data: seq<Entry>, refunds: seq<Entry>): seq<Entry>
  {
    var copied := CopyArray(refunds);
    if Empty(Get(VArr(data), "discount_amount")) then copied else PutFields(copied, data, DiscountFields)
  }

  function Discounts(data: seq<Entry>, refunds: seq<Entry>): Entry
  {
    Entry(SK("Discounts"), VArr([Entry(SK("Discount"), VArr(DiscountList(data, refunds)))]))
  }

  /** `Lines.TaxRequestLine`: the line items copied key by key, when there are any. */
  function LinesPart(lines: seq<Entry>): seq<Entry>
  {
    if |lines| > 0 then [Entry(SK("Lines"), VArr([Entry(SK("TaxRequestLine"), VArr(CopyArray(lines)))]))] else []
  }

  /** `Discounts`, first written by the refund loop. */
  function RefundPart(data: seq<Entry>, refunds: seq<Entry>): seq<Entry>
  {
    if |refunds| > 0 then [Discounts(data, refunds)] else []
  }

  function OriginPart(data: seq<Entry>): seq<Entry>
  {
    if !Empty(Get(VArr(data), "origin_zip")) then [Entry(SK("OriginAddress"), VArr(PutFields([], data, OriginFields)))]
    else []
  }

  function DestinationPart(data: seq<Entry>): seq<Entry>
  {
    if !Empty(Get(VArr(data), "destination_zip")) then
      [Entry(SK("DestinationAddress"), VArr(PutFields([], data, DestinationFields)))]
    else []
  }

  /** `Discounts`, first written by the discount keys when there are no refunds. */
  function DiscountPart(data: seq<Entry>, refunds: seq<Entry>): seq<Entry>
  {
    if |refunds| == 0 && !Empty(Get(VArr(data), "discount_amount")) then [Discounts(data, refunds)] else []
  }

  function CalculateHeader(prefix: string, partnerKey: string, apiKey: string, data: seq<Entry>, today: string): seq<Entry>
  {
    var d := VArr(data);
    [Entry(SK("Security"), Security(partnerKey, apiKey)),
     Entry(SK("DocumentKey"), Prefixed(prefix, Get(d, "document_key"))),
     Entry(SK("TaxDate"), if Empty(Get(d, "tax_date")) then VStr(today) else Get(d, "tax_date"))]
  }

  function CalculateTrailer(prefix: string, data: seq<Entry>): seq<Entry>
  {
    var d := VArr(data);
    [Entry(SK("IsCommited"), Get(d, "is_commited")),
     Entry(SK("CustomerKey"), Prefixed(prefix, Get(d, "customer_key"))),
     Entry(SK("CustomerTaxabilityCode"), Get(d, "is_exempt")),
     Entry(SK("CustomerRegistrationNumber"), VStr(""))]
  }

  /**
   * The `Request` block calculate_tax builds, key by key in the order the
   * source writes them. `Discounts` sits where it is first written: after
   * `Lines` when there are refunds, after `DestinationAddress` otherwise.
   */
  function CalculateBody(prefix: string, partnerKey: string, apiKey: string,
                         data: seq<Entry>, lines: seq<Entry>, refunds: seq<Entry>, today: string): seq<Entry>
  {
    CalculateHeader(prefix, partnerKey, apiKey, data, today)
    + LinesPart(lines) + RefundPart(data, refunds) + OriginPart(data) + DestinationPart(data)
    + DiscountPart(data, refunds)
    + CalculateTrailer(prefix, data)
  }

  /** A lookup in the body reads the first block that holds the key. */
  lemma BodyLookup(prefix: string, partnerKey: string, apiKey: string,
                   data: seq<Entry>, lines: seq<Entry>, refunds: seq<Entry>, today: string, k: Key)
    ensures Lookup(CalculateBody(prefix, partnerKey, apiKey, data, lines, refunds, today), k) ==
      OrElse(Lookup(CalculateHeader(prefix, partnerKey, apiKey, data, today), k),
      OrElse(Lookup(LinesPart(lines), k),
      OrElse(Lookup(RefundPart(data, refunds), k),
      OrElse(Lookup(OriginPart(data), k),
      OrElse(Lookup(DestinationPart(data), k),
      OrElse(Lookup(DiscountPart(data, refunds), k),
             Lookup(CalculateTrailer(prefix, data), k)))))))
  {
    LookupSeven(CalculateHeader(prefix, partnerKey, apiKey, data, today), LinesPart(lines), RefundPart(data, refunds),
                OriginPart(data), DestinationPart(data), DiscountPart(data, refunds), CalculateTrailer(prefix, data), k);
  }

  /** The names a CalculateTax `Request` block may carry. */
  predicate CalculateKey(k: Key)
  {
    k in {SK("Security"), SK("DocumentKey"), SK("TaxDate"), SK("Lines"), SK("Discounts"),
          SK("OriginAddress"), SK("DestinationAddress"), SK("IsCommited"), SK("CustomerKey"),
          SK("CustomerTaxabilityCode"), SK("CustomerRegistrationNumber")}
  }

  /** The header holds the credentials, the document key and the date. */
  lemma HeaderLookup(prefix: string, partnerKey: string, apiKey: string, data: seq<Entry>, today: string, k: Key)
    ensures var d := VArr(data);
      Lookup(CalculateHeader(prefix, partnerKey, apiKey, data, today), k) ==
        if k == SK("Security") then Some(Security(partnerKey, apiKey))
        else if k == SK("DocumentKey") then Some(Prefixed(prefix, Get(d, "document_key")))
        else if k == SK("TaxDate") then Some(if Empty(Get(d, "tax_date")) then VStr(today) else Get(d, "tax_date"))
        else None
  {
    var d := VArr(data);
    LookupThree(Entry(SK("Security"), Security(partnerKey, apiKey)),
                Entry(SK("DocumentKey"), Prefixed(prefix, Get(d, "document_key"))),
                Entry(SK("TaxDate"), if Empty(Get(d, "tax_date")) then VStr(today) else Get(d, "tax_date")), k);
  }

  /** The trailer holds the commit flag, the customer key and the exemption code. */
  lemma TrailerLookup(prefix: string, data: seq<Entry>, k: Key)
    ensures var d := VArr(data);
      Lookup(CalculateTrailer(prefix, data), k) ==
        if k == SK("IsCommited") then Some(Get(d, "is_commited"))
        else if k == SK("CustomerKey") then Some(Prefixed(prefix, Get(d, "customer_key")))
        else if k == SK("CustomerTaxabilityCode") then Some(Get(d, "is_exempt"))
        else if k == SK("CustomerRegistrationNumber") then Some(VStr(""))
        else None
  {
    var d := VArr(data);
    LookupFour(Entry(SK("IsCommited"), Get(d, "is_commited")),
               Entry(SK("CustomerKey"), Prefixed(prefix, Get(d, "customer_key"))),
               Entry(SK("CustomerTaxabilityCode"), Get(d, "is_exempt")),
               Entry(SK("CustomerRegistrationNumber"), VStr("")), k);
  }

  lemma LinesPartLookup(lines: seq<Entry>, k: Key)
    ensures Lookup(LinesPart(lines), k) ==
      if k == SK("Lines") && |lines| > 0 then Some(VArr([Entry(SK("TaxRequestLine"), VArr(CopyArray(lines)))]))
      else None
  {
  }

  lemma RefundPartLookup(data: seq<Entry>, refunds: seq<Entry>, k: Key)
    ensures Lookup(RefundPart(data, refunds), k).Some? <==> k == SK("Discounts") && |refunds| > 0
  {
  }

  lemma OriginPartLookup(data: seq<Entry>, k: Key)
    ensures Lookup(OriginPart(data), k).Some? <==> k == SK("OriginAddress") && !Empty(Get(VArr(data), "origin_zip"))
  {
  }

  lemma DestinationPartLookup(data: seq<Entry>, k: Key)
    ensures Lookup(DestinationPart(data), k).Some? <==>
      k == SK("DestinationAddress") && !Empty(Get(VArr(data), "destination_zip"))
  {
  }

  lemma DiscountPartLookup(data: seq<Entry>, refunds: seq<Entry>, k: Key)
    ensures Lookup(DiscountPart(data, refunds), k).Some? <==>
      k == SK("Discounts") && |refunds| == 0 && !Empty(Get(VArr(data), "discount_amount"))
  {
  }

  /** Only CalculateTax's own keys: nothing of an earlier request survives. */
  lemma CalculateBodyKeys(prefix: string, partnerKey: string, apiKey: string,
                          data: seq<Entry>, lines: seq<Entry>, refunds: seq<Entry>, today: string, k: Key)
    ensures Lookup(CalculateBody(prefix, partnerKey, apiKey, data, lines, refunds, today), k).Some? ==> CalculateKey(k)
  {
    BodyLookup(prefix, partnerKey, apiKey, data, lines, refunds, today, k);
    HeaderLookup(prefix, partnerKey, apiKey, data, today, k);
    LinesPartLookup(lines, k);
    RefundPartLookup(data, refunds, k);
    OriginPartLookup(data, k);
    DestinationPartLookup(data, k);
    DiscountPartLookup(data, refunds, k);
    TrailerLookup(prefix, data, k);
  }

  /** The address blocks exist exactly when their postcode is non-empty, `Discounts` with refunds or a discount. */
  lemma CalculateBodyBlocks(prefix: string, partnerKey: string, apiKey: string,
                            data: seq<Entry>, lines: seq<Entry>, refunds: seq<Entry>, today: string, k: Key)
    requires k in {SK("OriginAddress"), SK("DestinationAddress"), SK("Lines"), SK("Discounts")}
    ensures var b := CalculateBody(prefix, partnerKey, apiKey, data, lines, refunds, today);
      var d := VArr(data);
      Lookup(b, k).Some? <==>
        (k == SK("OriginAddress") && !Empty(Get(d, "origin_zip")))
        || (k == SK("DestinationAddress") && !Empty(Get(d, "destination_zip")))
        || (k == SK("Lines") && |lines| > 0)
        || (k == SK("Discounts") && (|refunds| > 0 || !Empty(Get(d, "discount_amount"))))
  {
    BodyLookup(prefix, partnerKey, apiKey, data, lines, refunds, today, k);
    HeaderLookup(prefix, partnerKey, apiKey, data, today, k);
    LinesPartLookup(lines, k);
    RefundPartLookup(data, refunds, k);
    OriginPartLookup(data, k);
    DestinationPartLookup(data, k);
    DiscountPartLookup(data, refunds, k);
    TrailerLookup(prefix, data, k);
  }

  /** The header and trailer values: prefixed keys, the date defaulting to today, the flags copied verbatim. */
  lemma CalculateBodyValues(prefix: string, partnerKey: string, apiKey: string,
                            data: seq<Entry>, lines: seq<Entry>, refunds: seq<Entry>, today: string, k: Key)
    requires !MiddleKey(k)
    ensures Lookup(CalculateBody(prefix, partnerKey, apiKey, data, lines, refunds, today), k) ==
      OrElse(Lookup(CalculateHeader(prefix, partnerKey, apiKey, data, today), k), Lookup(CalculateTrailer(prefix, data), k))
  {
    BodyLookup(prefix, partnerKey, apiKey, data, lines, refunds, today, k);
    LinesPartLookup(lines, k);
    RefundPartLookup(data, refunds, k);
    OriginPartLookup(data, k);
    DestinationPartLookup(data, k);
    DiscountPartLookup(data, refunds, k);
  }

  /** The names the middle blocks may carry. */
  predicate MiddleKey(k: Key)
  {
    k in {SK("Lines"), SK("Discounts"), SK("OriginAddress"), SK("DestinationAddress")}
  }

  /** The lines reach `Lines.TaxRequestLine` unchanged, in order and with their keys. */
  lemma CalculateBodyLines(prefix: string, partnerKey: string, apiKey: string,
                           data: seq<Entry>, lines: seq<Entry>, refunds: seq<Entry>, today: string)
    requires UniqueKeys(lines) && |lines| > 0
    ensures var b := CalculateBody(prefix, partnerKey, apiKey, data, lines, refunds, today);
      GetPath(b, [SK("Lines"), SK("TaxRequestLine")]) == Some(VArr(lines))
  {
    var b := CalculateBody(prefix, partnerKey, apiKey, data, lines, refunds, today);
    var inner := [Entry(SK("TaxRequestLine"), VArr(lines))];
    assert Lookup(b, SK("Lines")) == Some(VArr(inner)) by {
      BodyLookup(prefix, partnerKey, apiKey, data, lines, refunds, today, SK("Lines"));
      HeaderLookup(prefix, partnerKey, apiKey, data, today, SK("Lines"));
      LinesPartLookup(lines, SK("Lines"));
      CopyArrayOfUnique(lines);
    }
    LookupSingleton(inner[0], SK("TaxRequestLine"));
    assert [SK("Lines"), SK("TaxRequestLine")][1..] == [SK("TaxRequestLine")];
  }

  /** Without `discount_amount` the refunds reach `Discounts.Discount` unchanged; with it they stay beside the discount keys. */
  lemma DiscountListRefunds(data: seq<Entry>, refunds: seq<Entry>, k: Key)
    requires UniqueKeys(refunds)
    ensures Empty(Get(VArr(data), "discount_amount")) ==> DiscountList(data, refunds) == refunds
    ensures !k.SK? || k.s !in {"Order", "Code", "Amount", "DiscountType"} ==>
      Lookup(DiscountList(data, refunds), k) == Lookup(refunds, k)
  {
    CopyArrayOfUnique(refunds);
    PutFieldsLookup(refunds, data, DiscountFields, k);
  }

  /** A non-empty `discount_amount` writes the four discount keys. */
  lemma DiscountListFields(data: seq<Entry>, refunds: seq<Entry>, i: nat)
    requires i < |DiscountFields| && !Empty(Get(VArr(data), "discount_amount"))
    ensures Lookup(DiscountList(data, refunds), SK(DiscountFields[i].0)) == Some(Field(data, DiscountFields[i].1))
  {
    assert LastSource(DiscountFields, DiscountFields[i].0) == Some(DiscountFields[i].1) by {
      assert DiscountFields[1..][1..][1..][1..] == [];
    }
    PutFieldsLookup(CopyArray(refunds), data, DiscountFields, SK(DiscountFields[i].0));
  }

  /** `foreach ( $src as $k => $v ) $dst[ $k ] = $v;` into a fresh array. */
  method CopyEntries(src: seq<Entry>) returns (dst: seq<Entry>)
    ensures dst == CopyArray(src)
    ensures UniqueKeys(src) ==> dst == src
  {
    dst := [];
    var i := 0;
    while i < |src|
      invariant 0 <= i <= |src|
      invariant dst == CopyArray(src[..i])
    {
      assert src[..i + 1][..i] == src[..i];
      dst := Put(dst, src[i].k, src[i].v);
      i := i + 1;
    }
    assert src[..|src|] == src;
    if UniqueKeys(src) {
      CopyArrayOfUnique(src);
    }
  }

  /** The body is its seven blocks laid end to end. */
  lemma CalculateBodyParts(prefix: string, partnerKey: string, apiKey: string,
                           data: seq<Entry>, lines: seq<Entry>, refunds: seq<Entry>, today: string,
                           h: seq<Entry>, l: seq<Entry>, r: seq<Entry>, o: seq<Entry>, de: seq<Entry>, di: seq<Entry>,
                           t: seq<Entry>)
    requires h == CalculateHeader(prefix, partnerKey, apiKey, data, today) && l == LinesPart(lines)
    requires r == RefundPart(data, refunds) && o == OriginPart(data) && de == DestinationPart(data)
    requires di == DiscountPart(data, refunds) && t == CalculateTrailer(prefix, data)
    ensures h + l + r + o + de + di + t == CalculateBody(prefix, partnerKey, apiKey, data, lines, refunds, today)
  {
  }

  /**
   * `Discounts.Discount`: the refunds copied in, then the four discount keys
   * when `discount_amount` is non-empty. The block stands after `Lines` when
   * the refund loop wrote it first, after `DestinationAddress` otherwise.
   */
  method DiscountBlocks(data: seq<Entry>, refunds: seq<Entry>) returns (refundBlock: seq<Entry>, discountBlock: seq<Entry>)
    ensures refundBlock == RefundPart(data, refunds) && discountBlock == DiscountPart(data, refunds)
  {
    var discount: seq<Entry> := [];
    refundBlock := [];
    if |refunds| > 0 {
      discount := CopyEntries(refunds);
      refundBlock := [Entry(SK("Discounts"), VArr([Entry(SK("Discount"), VArr(discount))]))];
    }
    discountBlock := [];
    if !Empty(Get(VArr(data), "discount_amount")) {
      discount := PutFields(discount, data, DiscountFields);
      if |refunds| > 0 {
        refundBlock := [Entry(SK("Discounts"), VArr([Entry(SK("Discount"), VArr(discount))]))];
      } else {
        discountBlock := [Entry(SK("Discounts"), VArr([Entry(SK("Discount"), VArr(discount))]))];
      }
    }
  }

  /** `OriginAddress` when `origin_zip` is non-empty, `DestinationAddress` when `destination_zip` is. */
  method AddressBlocks(data: seq<Entry>) returns (origin: seq<Entry>, destination: seq<Entry>)
    ensures origin == OriginPart(data) && destination == DestinationPart(data)
  {
    origin := [];
    if !Empty(Get(VArr(data), "origin_zip")) {
      origin := [Entry(SK("OriginAddress"), VArr(PutFields([], data, OriginFields)))];
    }
    destination := [];
    if !Empty(Get(VArr(data), "destination_zip")) {
      destination := [Entry(SK("DestinationAddress"), VArr(PutFields([], data, DestinationFields)))];
    }
  }

  /**
   * The body calculate_tax writes into `$this->request['Request']`. Each
   * block is kept apart until the end because a PHP array keeps its keys in
   * first-write order: a later write to `Discounts` changes that entry where
   * it already stands.
   */
  method BuildCalculateBody(prefix: string, partnerKey: string, apiKey: string,
                            data: seq<Entry>, lines: seq<Entry>, refunds: seq<Entry>, today: string)
    returns (body: seq<Entry>)
    ensures body == CalculateBody(prefix, partnerKey, apiKey, data, lines, refunds, today)
  {
    var d := VArr(data);
    var header := [
      Entry(SK("Security"), Security(partnerKey, apiKey)),
      Entry(SK("DocumentKey"), Prefixed(prefix, Get(d, "document_key"))),
      Entry(SK("TaxDate"), if Empty(Get(d, "tax_date")) then VStr(today) else Get(d, "tax_date"))];
    assert header == CalculateHeader(prefix, partnerKey, apiKey, data, today);
    var linesBlock: seq<Entry> := [];
    if |lines| > 0 {
      var copied := CopyEntries(lines);
      linesBlock := [Entry(SK("Lines"), VArr([Entry(SK("TaxRequestLine"), VArr(copied))]))];
    }
    assert linesBlock == LinesPart(lines);
    var refundBlock, discountBlock := DiscountBlocks(data, refunds);
    var origin, destination := AddressBlocks(data);
    var trailer := [
      Entry(SK("IsCommited"), Get(d, "is_commited")),
      Entry(SK("CustomerKey"), Prefixed(prefix, Get(d, "customer_key"))),
      Entry(SK("CustomerTaxabilityCode"), Get(d, "is_exempt")),
      Entry(SK("CustomerRegistrationNumber"), VStr(""))];
    assert trailer == CalculateTrailer(prefix, data);
    body := header + linesBlock + refundBlock + origin + destination + discountBlock + trailer;
    CalculateBodyParts(prefix, partnerKey, apiKey, data, lines, refunds, today,
                       header, linesBlock, refundBlock, origin, destination, discountBlock, trailer);
  }

  /** The SOAP client wrapper with its last request and the exchanges so far. */
  class Soap {
    const partnerKey: string
    const apiKey: string
    const storePrefix: string
    const oracle: nat -> Outcome

    var request: seq<Entry>
    var clientCreated: bool
    var connections: nat
    var attempts: nat
    var sent: seq<Call>
    /** The calls in `sent`, as the API methods were called. */
    ghost var calls: seq<ApiCall>

    /** The client is built at most once. */
    ghost predicate Valid()
      reads this
    {
      connections == (if clientCreated then 1 else 0)
    }

    constructor(partnerKey: string, apiKey: string, storePrefix: string, oracle: nat -> Outcome)
      ensures Valid() && !clientCreated && attempts == 0 && sent == [] && calls == [] && request == []
      ensures this.partnerKey == partnerKey && this.apiKey == apiKey
      ensures this.storePrefix == storePrefix && this.oracle == oracle
    {
      this.partnerKey := partnerKey;
      this.apiKey := apiKey;
      this.storePrefix := storePrefix;
      this.oracle := oracle;
      request := [];
      clientCreated := false;
      connections := 0;
      attempts := 0;
      sent := [];
      calls := [];
    }

    /**
     * What one call of `request( $method )` did, given the state before it:
     * nothing when the method or the request is empty; otherwise one use of
     * the oracle, the client built when missing, the request sent when a
     * client exists, and the answer returned unless something threw.
     */
    ghost predicate Exchanged(attempts0: nat, sent0: seq<Call>, client0: bool, calls0: seq<ApiCall>,
                              op: string, call: ApiCall, r: Option<Response>)
      reads this
    {
      if EmptyStr(op) || |request| == 0 then
        r == None && attempts == attempts0 && sent == sent0 && clientCreated == client0 && calls == calls0
      else
        var o := oracle(attempts0);
        var created := client0 || !o.ConnectFault?;
        attempts == attempts0 + 1
        && clientCreated == created
        && sent == (if created then sent0 + [Call(op, request)] else sent0)
        && calls == (if created then calls0 + [call] else calls0)
        && r == (if created && o.Answer? then Some(o.r) else None)
    }

    /** request(): the transport call, `false` (None) when skipped or when it throws. */
    method Request(op: string, ghost call: ApiCall) returns (r: Option<Response>)
      requires Valid()
      modifies this
      ensures Valid() && request == old(request)
      ensures Exchanged(old(attempts), old(sent), old(clientCreated), old(calls), op, call, r)
    {
      r := None;
      if !EmptyStr(op) && |request| > 0 {
        var o := oracle(attempts);
        attempts := attempts + 1;
        if !clientCreated {
          if o.ConnectFault? {
            return;
          }
          clientCreated := true;
          connections := connections + 1;
        }
        sent := sent + [Call(op, request)];
        calls := calls + [call];
        if o.Answer? {
          r := Some(o.r);
        }
      }
    }

    /** calculate_tax: rebuilds the request from `data`, the lines and the refunds, then sends CalculateTax. */
    method CalculateTax(data: seq<Entry>, lines: seq<Entry>, refunds: seq<Entry>, today: string)
      returns (r: Option<Response>)
      requires Valid()
      modifies this
      ensures Valid()
      ensures request == [Entry(SK("Request"), VArr(CalculateBody(storePrefix, partnerKey, apiKey, data, lines, refunds, today)))]
      ensures Exchanged(old(attempts), old(sent), old(clientCreated), old(calls),
                        "CalculateTax", CalculateCall(data, lines, refunds, today), r)
    {
      var body := BuildCalculateBody(storePrefix, partnerKey, apiKey, data, lines, refunds, today);
      request := [Entry(SK("Request"), VArr(body))];
      r := Request("CalculateTax", CalculateCall(data, lines, refunds, today));
    }

    /** cancel_tax: credentials and the prefixed document key, then CancelTax. */
    method CancelTax(documentKey: Value) returns (r: Option<Response>)
      requires Valid()
      modifies this
      ensures Valid()
      ensures request == [Entry(SK("Request"), VArr([
        Entry(SK("Security"), Security(partnerKey, apiKey)),
        Entry(SK("DocumentKey"), Prefixed(storePrefix, documentKey))]))]
      ensures Exchanged(old(attempts), old(sent), old(clientCreated), old(calls), "CancelTax", CancelCall(documentKey), r)
    {
      // Both keys are fresh, so the two writes append in order.
      var body := [Entry(SK("Security"), Security(partnerKey, apiKey)),
                   Entry(SK("DocumentKey"), Prefixed(storePrefix, documentKey))];
      request := [Entry(SK("Request"), VArr(body))];
      r := Request("CancelTax", CancelCall(documentKey));
    }

    /** commit_tax: both keys are sent as given, without the store prefix. */
    method CommitTax(data: seq<Entry>) returns (r: Option<Response>)
      requires Valid()
      modifies this
      ensures Valid()
      ensures request == [Entry(SK("Request"), VArr([
        Entry(SK("Security"), Security(partnerKey, apiKey)),
        Entry(SK("DocumentKey"), Field(data, "document_key")),
        Entry(SK("CommitedDocumentKey"), Field(data, "commited_document_key"))]))]
      ensures Exchanged(old(attempts), old(sent), old(clientCreated), old(calls),
                        "CommitTax", CommitCall(data), r)
    {
      var body := [Entry(SK("Security"), Security(partnerKey, apiKey)),
                   Entry(SK("DocumentKey"), Field(data, "document_key")),
                   Entry(SK("CommitedDocumentKey"), Field(data, "commited_document_key"))];
      request := [Entry(SK("Request"), VArr(body))];
      r := Request("CommitTax", CommitCall(data));
    }

    /** get_version: resends whatever request the last call left behind. */
    method GetVersion() returns (r: Option<Response>)
      requires Valid()
      modifies this
      ensures Valid() && request == old(request)
      ensures Exchanged(old(attempts), old(sent), old(clientCreated), old(calls), "GetVersion", VersionCall, r)
      ensures |old(request)| == 0 ==> r == None && sent == old(sent)
    {
      r := Request("GetVersion", VersionCall);
    }

    /** verify_address: `false` without a call for an empty address; the credentials stay in the request. */
    method VerifyAddress(address: seq<Entry>) returns (r: Option<Response>)
      requires Valid()
      modifies this
      ensures Valid()
      ensures |address| == 0 ==>
        (r == None && sent == old(sent) && attempts == old(attempts) && calls == old(calls)
         && request == [Entry(SK("Request"), VArr([Entry(SK("Security"), Security(partnerKey, apiKey))]))])
      ensures |address| > 0 ==>
        request == [Entry(SK("Request"), VArr(PutFields([Entry(SK("Security"), Security(partnerKey, apiKey))],
                                                         address, VerifyFields)))]
      ensures |address| > 0 ==> Exchanged(old(attempts), old(sent), old(clientCreated), old(calls),
                        "VerifyAddress", VerifyCall(address), r)
    {
      var body := [Entry(SK("Security"), Security(partnerKey, apiKey))];
      request := [Entry(SK("Request"), VArr(body))];
      if |address| == 0 {
        return None;
      }
      body := PutFields(body, address, VerifyFields);
      request := [Entry(SK("Request"), VArr(body))];
      r := Request("VerifyAddress", VerifyCall(address));
    }

    /** get_codes: credentials and `CodeType => 'Item'` under `GetCodes`. */
    method GetCodes() returns (r: Option<Response>)
      requires Valid()
      modifies this
      ensures Valid()
      ensures request == [Entry(SK("GetCodes"), VArr([
        Entry(SK("Security"), Security(partnerKey, apiKey)),
        Entry(SK("CodeType"), VStr("Item"))]))]
      ensures Exchanged(old(attempts), old(sent), old(clientCreated), old(calls), "GetCodes", CodesCall, r)
    {
      var body := [Entry(SK("Security"), Security(partnerKey, apiKey)),
                   Entry(SK("CodeType"), VStr("Item"))];
      request := [Entry(SK("GetCodes"), VArr(body))];
      r := Request("GetCodes", CodesCall);
    }
  }
}
