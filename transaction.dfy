/**
  The transaction value object and its decoder `Transaction::create`, which
  maps one record of the bank's account statement, keyed by positional column
  identifiers, to named fields.
 */
module Transactions {
  import opened Wrappers
  import opened Json

  /** The `column0` text that `create` hands to DateTimeImmutable, kept unparsed. */
  type DateTime = string

  /**
    One movement on the account. Fields are assigned once, by the constructor,
    and never changed: the getters of the source are the destructors below.
    `amount` and `paymentOrderId` are PHP floats, modelled as integers.
   */
  datatype Transaction = Transaction(
    id: string,
    date: DateTime,
    amount: int,
    currency: string,
    accountNumber: Option<string>,
    bankCode: Option<string>,
    bankName: Option<string>,
    senderName: Option<string>,
    constantSymbol: Option<string>,
    variableSymbol: Option<string>,
    specificSymbol: Option<string>,
    userIdentity: Option<string>,
    userMessage: Option<string>,
    transactionType: string,
    performedBy: Option<string>,
    comment: Option<string>,
    paymentOrderId: Option<int>,
    specification: Option<string>)
  {
    /** getSenderAccountNumber, deprecated: forwards to getAccountNumber. */
    function DeprecatedSenderAccountNumber(): Option<string> {
      accountNumber
    }

    /** getSenderBankCode, deprecated: forwards to getBankCode. */
    function DeprecatedSenderBankCode(): Option<string> {
      bankCode
    }

    /** getSenderName, deprecated: forwards to getBankName, not to the senderName field. */
    function DeprecatedSenderName(): Option<string> {
      bankName
    }
  }

  /**
    The exception `create` raises. The source is declared with strict types,
    so a column of the wrong JSON type, or a missing column where the
    parameter is not nullable, is a TypeError; `column` says which one.
   */
  datatype CreateError = TypeError(column: nat)

  // ---------------------------------------------------------------------
  // The column table: which column feeds which field, under which rule.
  // ---------------------------------------------------------------------

  /** How `create` treats a column. */
  datatype Rule =
    | CastToString    // `(string)` of the value; an absent column reads as null, cast to ''
    | DateString      // handed to DateTimeImmutable, whose parameter is a string
    | Number          // float parameter: the column must hold a number
    | String          // string parameter: the column must hold a string
    | NullableString  // ?string parameter: null when the column is absent
    | StringOrEmpty   // string parameter, '' when the column is absent
    | NullableNumber  // ?float parameter: null when the column is absent

  /** The eighteen columns `create` reads. */
  const READ: set<nat> := {22, 0, 1, 14, 2, 3, 12, 10, 4, 5, 6, 7, 16, 8, 9, 25, 17, 18}

  /** The rule for each column `create` reads; None for every other column. */
  function RuleOf(column: nat): (r: Option<Rule>)
    ensures r.Some? <==> column in READ
  {
    match column
    case 22 => Some(CastToString)
    case 0 => Some(DateString)
    case 1 => Some(Number)
    case 14 => Some(String)
    case 8 => Some(StringOrEmpty)
    case 17 => Some(NullableNumber)
    case 2 => Some(NullableString)
    case 3 => Some(NullableString)
    case 12 => Some(NullableString)
    case 10 => Some(NullableString)
    case 4 => Some(NullableString)
    case 5 => Some(NullableString)
    case 6 => Some(NullableString)
    case 7 => Some(NullableString)
    case 16 => Some(NullableString)
    case 9 => Some(NullableString)
    case 25 => Some(NullableString)
    case 18 => Some(NullableString)
    case _ => None
  }

  /**
    The order in which a bad column surfaces: `column0` while the arguments
    are evaluated (DateTimeImmutable is built there), then the constructor's
    parameters in declaration order. `column22` is cast and never fails.
   */
  const CHECK_ORDER: seq<nat> := [0, 1, 14, 2, 3, 12, 10, 4, 5, 6, 7, 16, 8, 9, 25, 17, 18]

  /** Whether a column's value (null when absent) is acceptable under a rule. */
  predicate Accepts(rule: Rule, v: Option<Value>) {
    match rule
    case CastToString => true
    case DateString => v.Some? && v.value.Str?
    case String => v.Some? && v.value.Str?
    case Number => v.Some? && v.value.Num?
    case NullableString => v.None? || v.value.Str?
    case StringOrEmpty => v.None? || v.value.Str?
    case NullableNumber => v.None? || v.value.Num?
  }

  /** Whether the column is acceptable to `create`; a column it does not read always is. */
  predicate Fits(data: Record, column: nat) {
    RuleOf(column).None? || Accepts(RuleOf(column).value, Lookup(data, column))
  }

  /** The value a column holds, null when the column is absent. */
  function Lookup(data: Record, column: nat): Option<Value> {
    if column in data then Some(data[column]) else None
  }

  function TextValue(o: Option<string>): Option<Value> {
    if o.Some? then Some(Str(o.value)) else None
  }

  function NumberValue(o: Option<int>): Option<Value> {
    if o.Some? then Some(Num(o.value)) else None
  }

  /** What a transaction holds for a column, written as the JSON value of that column. */
  function Field(t: Transaction, column: nat): Option<Value> {
    match column
    case 22 => Some(Str(t.id))
    case 0 => Some(Str(t.date))
    case 1 => Some(Num(t.amount))
    case 14 => Some(Str(t.currency))
    case 8 => Some(Str(t.transactionType))
    case 17 => NumberValue(t.paymentOrderId)
    case 2 => TextValue(t.accountNumber)
    case 3 => TextValue(t.bankCode)
    case 12 => TextValue(t.bankName)
    case 10 => TextValue(t.senderName)
    case 4 => TextValue(t.constantSymbol)
    case 5 => TextValue(t.variableSymbol)
    case 6 => TextValue(t.specificSymbol)
    case 7 => TextValue(t.userIdentity)
    case 16 => TextValue(t.userMessage)
    case 9 => TextValue(t.performedBy)
    case 25 => TextValue(t.comment)
    case 18 => TextValue(t.specification)
    case _ => None
  }

  /** The text a column holds, if it is present and holds text. */
  function TextIn(data: Record, column: nat): Option<string> {
    if column in data && data[column].Str? then Some(data[column].s) else None
  }

  // ---------------------------------------------------------------------
  // The decoder, argument by argument as the source writes it.
  // ---------------------------------------------------------------------

  // Each helper receives `Lookup(data, n)`: the value of `column<n>`, or null.

  /** `(string) $data->columnN->value`: an absent column reads as null, which casts to ''. */
  function CastText(v: Option<Value>): string {
    if v.Some? then StringCast(v.value) else ""
  }

  /** A string argument read directly from a required column. */
  function RequiredText(column: nat, v: Option<Value>): Result<string, CreateError> {
    if v.Some? && v.value.Str? then Success(v.value.s) else Failure(TypeError(column))
  }

  /** A float argument read directly from a required column. */
  function RequiredNumber(column: nat, v: Option<Value>): Result<int, CreateError> {
    if v.Some? && v.value.Num? then Success(v.value.n) else Failure(TypeError(column))
  }

  /** `!empty($data->columnN) ? $data->columnN->value : null` into a ?string parameter. */
  function TextOrNull(column: nat, v: Option<Value>): Result<Option<string>, CreateError> {
    if v.None? then Success(None)
    else if v.value.Str? then Success(Some(v.value.s))
    else Failure(TypeError(column))
  }

  /** `!empty($data->columnN) ? $data->columnN->value : ''` into a string parameter. */
  function TextOrDefault(column: nat, v: Option<Value>, default: string): Result<string, CreateError> {
    if v.None? then Success(default)
    else if v.value.Str? then Success(v.value.s)
    else Failure(TypeError(column))
  }

  /** `!empty($data->columnN) ? $data->columnN->value : null` into a ?float parameter. */
  function NumberOrNull(column: nat, v: Option<Value>): Result<Option<int>, CreateError> {
    if v.None? then Success(None)
    else if v.value.Num? then Success(Some(v.value.n))
    else Failure(TypeError(column))
  }

  /** `Transaction::create`: decodes one record of the account statement. */
  function Create(data: Record): Result<Transaction, CreateError> {
    var id := CastText(Lookup(data, 22));
    var date :- RequiredText(0, Lookup(data, 0));
    var amount :- RequiredNumber(1, Lookup(data, 1));
    var currency :- RequiredText(14, Lookup(data, 14));
    var accountNumber :- TextOrNull(2, Lookup(data, 2));
    var bankCode :- TextOrNull(3, Lookup(data, 3));
    var bankName :- TextOrNull(12, Lookup(data, 12));
    var senderName :- TextOrNull(10, Lookup(data, 10));
    var constantSymbol :- TextOrNull(4, Lookup(data, 4));
    var variableSymbol :- TextOrNull(5, Lookup(data, 5));
    var specificSymbol :- TextOrNull(6, Lookup(data, 6));
    var userIdentity :- TextOrNull(7, Lookup(data, 7));
    var userMessage :- TextOrNull(16, Lookup(data, 16));
    var transactionType :- TextOrDefault(8, Lookup(data, 8), "");
    var performedBy :- TextOrNull(9, Lookup(data, 9));
    var comment :- TextOrNull(25, Lookup(data, 25));
    var paymentOrderId :- NumberOrNull(17, Lookup(data, 17));
    var specification :- TextOrNull(18, Lookup(data, 18));
    Success(Transaction(
      id, date, amount, currency, accountNumber, bankCode, bankName, senderName,
      constantSymbol, variableSymbol, specificSymbol, userIdentity, userMessage,
      transactionType, performedBy, comment, paymentOrderId, specification))
  }

  // ---------------------------------------------------------------------
  // What create promises.
  // ---------------------------------------------------------------------

  /** A TypeError always names a column `create` reads, and never column22: the cast cannot fail. */
  lemma OnlyTypedColumnsFail(data: Record)
    ensures Create(data).Failure? ==> Create(data).error.column in READ && Create(data).error.column != 22
  {
  }

  /** `create` succeeds exactly when every column fits its rule. */
  lemma CreateSucceedsIff(data: Record)
    ensures Create(data).Success? <==> forall c :: Fits(data, c)
  {
    if Create(data).Failure? {
      var c := Create(data).error.column;
      assert !Fits(data, c);
    }
  }

  /** The first nine columns in CHECK_ORDER fit exactly when their argument is well-typed. */
  lemma WellTypedHead(data: Record)
    ensures Fits(data, 0) <==> RequiredText(0, Lookup(data, 0)).Success?
    ensures Fits(data, 1) <==> RequiredNumber(1, Lookup(data, 1)).Success?
    ensures Fits(data, 14) <==> RequiredText(14, Lookup(data, 14)).Success?
    ensures Fits(data, 2) <==> TextOrNull(2, Lookup(data, 2)).Success?
    ensures Fits(data, 3) <==> TextOrNull(3, Lookup(data, 3)).Success?
    ensures Fits(data, 12) <==> TextOrNull(12, Lookup(data, 12)).Success?
    ensures Fits(data, 10) <==> TextOrNull(10, Lookup(data, 10)).Success?
    ensures Fits(data, 4) <==> TextOrNull(4, Lookup(data, 4)).Success?
    ensures Fits(data, 5) <==> TextOrNull(5, Lookup(data, 5)).Success?
  {
  }

  /** The last eight columns in CHECK_ORDER fit exactly when their argument is well-typed. */
  lemma WellTypedTail(data: Record)
    ensures Fits(data, 6) <==> TextOrNull(6, Lookup(data, 6)).Success?
    ensures Fits(data, 7) <==> TextOrNull(7, Lookup(data, 7)).Success?
    ensures Fits(data, 16) <==> TextOrNull(16, Lookup(data, 16)).Success?
    ensures Fits(data, 8) <==> TextOrDefault(8, Lookup(data, 8), "").Success?
    ensures Fits(data, 9) <==> TextOrNull(9, Lookup(data, 9)).Success?
    ensures Fits(data, 25) <==> TextOrNull(25, Lookup(data, 25)).Success?
    ensures Fits(data, 17) <==> NumberOrNull(17, Lookup(data, 17)).Success?
    ensures Fits(data, 18) <==> TextOrNull(18, Lookup(data, 18)).Success?
  {
  }

  /** When columns misfit, the TypeError names the first of them in CHECK_ORDER. */
  lemma CreateReportsFirstMisfit(data: Record, i: nat)
    requires i < |CHECK_ORDER|
    requires !Fits(data, CHECK_ORDER[i])
    requires forall j :: 0 <= j < i ==> Fits(data, CHECK_ORDER[j])
    ensures Create(data) == Failure(TypeError(CHECK_ORDER[i]))
  {
    if i < 3 {
      FirstMisfitAmongRequired(data, i);
    } else if i < 7 {
      FirstMisfitAmongCounterparty(data, i);
    } else if i < 11 {
      FirstMisfitAmongSymbols(data, i);
    } else if i < 14 {
      FirstMisfitAmongNotes(data, i);
    } else {
      FirstMisfitAmongRemaining(data, i);
    }
  }

  /** CreateReportsFirstMisfit when the first misfit is among the required columns 0, 1 and 14. */
  lemma FirstMisfitAmongRequired(data: Record, i: nat)
    requires 0 <= i < 3
    requires !Fits(data, CHECK_ORDER[i])
    requires forall j :: 0 <= j < i ==> Fits(data, CHECK_ORDER[j])
    ensures Create(data) == Failure(TypeError(CHECK_ORDER[i]))
  {
    WellTypedHead(data);
    assert i > 0 ==> Fits(data, CHECK_ORDER[0]);
    assert i > 1 ==> Fits(data, CHECK_ORDER[1]);
  }

  /** CreateReportsFirstMisfit when the first misfit is among the counter-account columns 2, 3, 12 and 10. */
  lemma FirstMisfitAmongCounterparty(data: Record, i: nat)
    requires 3 <= i < 7
    requires !Fits(data, CHECK_ORDER[i])
    requires forall j :: 0 <= j < i ==> Fits(data, CHECK_ORDER[j])
    ensures Create(data) == Failure(TypeError(CHECK_ORDER[i]))
  {
    WellTypedHead(data);
    assert Fits(data, CHECK_ORDER[0]);
    assert Fits(data, CHECK_ORDER[1]);
    assert Fits(data, CHECK_ORDER[2]);
    assert i > 3 ==> Fits(data, CHECK_ORDER[3]);
    assert i > 4 ==> Fits(data, CHECK_ORDER[4]);
    assert i > 5 ==> Fits(data, CHECK_ORDER[5]);
  }

  /** CreateReportsFirstMisfit when the first misfit is among the symbol and identity columns 4, 5, 6 and 7. */
  lemma FirstMisfitAmongSymbols(data: Record, i: nat)
    requires 7 <= i < 11
    requires !Fits(data, CHECK_ORDER[i])
    requires forall j :: 0 <= j < i ==> Fits(data, CHECK_ORDER[j])
    ensures Create(data) == Failure(TypeError(CHECK_ORDER[i]))
  {
    WellTypedHead(data);
    WellTypedTail(data);
    assert Fits(data, CHECK_ORDER[0]);
    assert Fits(data, CHECK_ORDER[1]);
    assert Fits(data, CHECK_ORDER[2]);
    assert Fits(data, CHECK_ORDER[3]);
    assert Fits(data, CHECK_ORDER[4]);
    assert Fits(data, CHECK_ORDER[5]);
    assert Fits(data, CHECK_ORDER[6]);
    assert i > 7 ==> Fits(data, CHECK_ORDER[7]);
    assert i > 8 ==> Fits(data, CHECK_ORDER[8]);
    assert i > 9 ==> Fits(data, CHECK_ORDER[9]);
  }

  /** CreateReportsFirstMisfit when the first misfit is among columns 16, 8 and 9. */
  lemma FirstMisfitAmongNotes(data: Record, i: nat)
    requires 11 <= i < 14
    requires !Fits(data, CHECK_ORDER[i])
    requires forall j :: 0 <= j < i ==> Fits(data, CHECK_ORDER[j])
    ensures Create(data) == Failure(TypeError(CHECK_ORDER[i]))
  {
    WellTypedHead(data);
    WellTypedTail(data);
    assert Fits(data, CHECK_ORDER[0]);
    assert Fits(data, CHECK_ORDER[1]);
    assert Fits(data, CHECK_ORDER[2]);
    assert Fits(data, CHECK_ORDER[3]);
    assert Fits(data, CHECK_ORDER[4]);
    assert Fits(data, CHECK_ORDER[5]);
    assert Fits(data, CHECK_ORDER[6]);
    assert Fits(data, CHECK_ORDER[7]);
    assert Fits(data, CHECK_ORDER[8]);
    assert Fits(data, CHECK_ORDER[9]);
    assert Fits(data, CHECK_ORDER[10]);
    assert i > 11 ==> Fits(data, CHECK_ORDER[11]);
    assert i > 12 ==> Fits(data, CHECK_ORDER[12]);
  }

  /** CreateReportsFirstMisfit when the first misfit is among columns 25, 17 and 18. */
  lemma FirstMisfitAmongRemaining(data: Record, i: nat)
    requires 14 <= i < 17
    requires !Fits(data, CHECK_ORDER[i])
    requires forall j :: 0 <= j < i ==> Fits(data, CHECK_ORDER[j])
    ensures Create(data) == Failure(TypeError(CHECK_ORDER[i]))
  {
    WellTypedHead(data);
    WellTypedTail(data);
    assert Fits(data, CHECK_ORDER[0]);
    assert Fits(data, CHECK_ORDER[1]);
    assert Fits(data, CHECK_ORDER[2]);
    assert Fits(data, CHECK_ORDER[3]);
    assert Fits(data, CHECK_ORDER[4]);
    assert Fits(data, CHECK_ORDER[5]);
    assert Fits(data, CHECK_ORDER[6]);
    assert Fits(data, CHECK_ORDER[7]);
    assert Fits(data, CHECK_ORDER[8]);
    assert Fits(data, CHECK_ORDER[9]);
    assert Fits(data, CHECK_ORDER[10]);
    assert Fits(data, CHECK_ORDER[11]);
    assert Fits(data, CHECK_ORDER[12]);
    assert Fits(data, CHECK_ORDER[13]);
    assert i > 14 ==> Fits(data, CHECK_ORDER[14]);
    assert i > 15 ==> Fits(data, CHECK_ORDER[15]);
  }

  /** t holds, in each field, the argument `create` computes from that field's column. */
  predicate Decodes(data: Record, t: Transaction) {
    DecodesKeyFields(data, t) && DecodesOptionalTexts(data, t)
  }

  /** The id, date, amount, currency, type and payment order id of t are the arguments computed from their columns. */
  predicate DecodesKeyFields(data: Record, t: Transaction) {
    && t.id == CastText(Lookup(data, 22))
    && RequiredText(0, Lookup(data, 0)) == Success(t.date)
    && RequiredNumber(1, Lookup(data, 1)) == Success(t.amount)
    && RequiredText(14, Lookup(data, 14)) == Success(t.currency)
    && TextOrDefault(8, Lookup(data, 8), "") == Success(t.transactionType)
    && NumberOrNull(17, Lookup(data, 17)) == Success(t.paymentOrderId)
  }

  /** The twelve nullable text fields of t are the arguments computed from their columns. */
  predicate DecodesOptionalTexts(data: Record, t: Transaction) {
    && TextOrNull(2, Lookup(data, 2)) == Success(t.accountNumber)
    && TextOrNull(3, Lookup(data, 3)) == Success(t.bankCode)
    && TextOrNull(12, Lookup(data, 12)) == Success(t.bankName)
    && TextOrNull(10, Lookup(data, 10)) == Success(t.senderName)
    && TextOrNull(4, Lookup(data, 4)) == Success(t.constantSymbol)
    && TextOrNull(5, Lookup(data, 5)) == Success(t.variableSymbol)
    && TextOrNull(6, Lookup(data, 6)) == Success(t.specificSymbol)
    && TextOrNull(7, Lookup(data, 7)) == Success(t.userIdentity)
    && TextOrNull(16, Lookup(data, 16)) == Success(t.userMessage)
    && TextOrNull(9, Lookup(data, 9)) == Success(t.performedBy)
    && TextOrNull(25, Lookup(data, 25)) == Success(t.comment)
    && TextOrNull(18, Lookup(data, 18)) == Success(t.specification)
  }

  /** A successful result holds the arguments `create` computed. */
  lemma CreateArguments(data: Record, t: Transaction)
    requires Create(data) == Success(t)
    ensures Decodes(data, t)
  {
  }

  /** `create` returns t exactly when t holds the arguments computed from the record. */
  lemma CreateIffDecodes(data: Record, t: Transaction)
    ensures Create(data) == Success(t) <==> Decodes(data, t)
  {
    if Decodes(data, t) {
      assert Create(data).Success?;
      CreateArguments(data, Create(data).value);
    }
  }

  // Each argument helper, when it succeeds, hands on exactly its column's value.

  lemma RequiredTextMirrors(c: nat, v: Option<Value>, s: string)
    requires RequiredText(c, v) == Success(s)
    ensures v == Some(Str(s))
  {
  }

  lemma RequiredNumberMirrors(c: nat, v: Option<Value>, n: int)
    requires RequiredNumber(c, v) == Success(n)
    ensures v == Some(Num(n))
  {
  }

  lemma TextOrNullMirrors(c: nat, v: Option<Value>, o: Option<string>)
    requires TextOrNull(c, v) == Success(o)
    ensures v == TextValue(o)
  {
  }

  lemma NumberOrNullMirrors(c: nat, v: Option<Value>, o: Option<int>)
    requires NumberOrNull(c, v) == Success(o)
    ensures v == NumberValue(o)
  {
  }

  /** The fields of a decoded transaction mirror their columns, null for an absent one. */
  lemma DecodedFieldsMirrorColumns(data: Record, t: Transaction)
    requires Decodes(data, t)
    ensures forall c :: c in READ && c != 22 && c != 8 ==> Field(t, c) == Lookup(data, c)
  {
    DecodedKeyFieldsMirror(data, t);
    DecodedCounterpartyTextsMirror(data, t);
    DecodedSymbolTextsMirror(data, t);
    DecodedNoteTextsMirror(data, t);
  }

  // DecodedFieldsMirrorColumns, one group of columns at a time.

  lemma DecodedKeyFieldsMirror(data: Record, t: Transaction)
    requires DecodesKeyFields(data, t)
    ensures forall c :: c in {0, 1, 14, 17} ==> Field(t, c) == Lookup(data, c)
  {
    RequiredTextMirrors(0, Lookup(data, 0), t.date);
    RequiredNumberMirrors(1, Lookup(data, 1), t.amount);
    RequiredTextMirrors(14, Lookup(data, 14), t.currency);
    NumberOrNullMirrors(17, Lookup(data, 17), t.paymentOrderId);
  }

  lemma DecodedCounterpartyTextsMirror(data: Record, t: Transaction)
    requires DecodesOptionalTexts(data, t)
    ensures forall c :: c in {2, 3, 12, 10} ==> Field(t, c) == Lookup(data, c)
  {
    TextOrNullMirrors(2, Lookup(data, 2), t.accountNumber);
    TextOrNullMirrors(3, Lookup(data, 3), t.bankCode);
    TextOrNullMirrors(12, Lookup(data, 12), t.bankName);
    TextOrNullMirrors(10, Lookup(data, 10), t.senderName);
  }

  lemma DecodedSymbolTextsMirror(data: Record, t: Transaction)
    requires DecodesOptionalTexts(data, t)
    ensures forall c :: c in {4, 5, 6, 7} ==> Field(t, c) == Lookup(data, c)
  {
    TextOrNullMirrors(4, Lookup(data, 4), t.constantSymbol);
    TextOrNullMirrors(5, Lookup(data, 5), t.variableSymbol);
    TextOrNullMirrors(6, Lookup(data, 6), t.specificSymbol);
    TextOrNullMirrors(7, Lookup(data, 7), t.userIdentity);
  }

  lemma DecodedNoteTextsMirror(data: Record, t: Transaction)
    requires DecodesOptionalTexts(data, t)
    ensures forall c :: c in {16, 9, 25, 18} ==> Field(t, c) == Lookup(data, c)
  {
    TextOrNullMirrors(16, Lookup(data, 16), t.userMessage);
    TextOrNullMirrors(9, Lookup(data, 9), t.performedBy);
    TextOrNullMirrors(25, Lookup(data, 25), t.comment);
    TextOrNullMirrors(18, Lookup(data, 18), t.specification);
  }

  /**
    Create, then get: every getter returns what the record's column holds.
    Apart from the id and the type, each field mirrors its column exactly,
    null when the column is absent.
   */
  lemma CreateThenGet(data: Record, t: Transaction)
    requires Create(data) == Success(t)
    ensures 22 !in data ==> t.id == ""
    ensures 22 in data && data[22].Str? ==> t.id == data[22].s
    ensures 22 in data && data[22].Num? ==> t.id == DecimalString(data[22].n)
    ensures 22 in data && data[22].Num? ==> IsCanonicalDecimal(t.id) && ParseDecimal(t.id) == data[22].n
    ensures t.transactionType == if 8 in data then data[8].s else ""
    ensures forall c :: c in READ && c != 22 && c != 8 ==> Field(t, c) == Lookup(data, c)
  {
    CreateArguments(data, t);
    DecodedFieldsMirrorColumns(data, t);
  }

  /** The transaction type is '' exactly when its column is absent or holds ''. */
  lemma TransactionTypeDefaultsToEmpty(data: Record, t: Transaction)
    requires Create(data) == Success(t)
    ensures t.transactionType == "" <==> 8 !in data || data[8] == Str("")
  {
  }

  /** The variable symbol follows the ordinary optional rule: null exactly when its column is absent. */
  lemma VariableSymbolIsNullWhenAbsent(data: Record, t: Transaction)
    requires Create(data) == Success(t)
    ensures t.variableSymbol == None <==> 5 !in data
    ensures 5 in data ==> t.variableSymbol == Some(data[5].s)
  {
  }

  /** The deprecated getters return what their replacements return. */
  lemma DeprecatedGettersForward(data: Record, t: Transaction)
    requires Create(data) == Success(t)
    ensures t.DeprecatedSenderAccountNumber() == t.accountNumber == TextIn(data, 2)
    ensures t.DeprecatedSenderBankCode() == t.bankCode == TextIn(data, 3)
    ensures t.DeprecatedSenderName() == t.bankName == TextIn(data, 12)
  {
  }

  /** getSenderName reports the bank name (column12), not the counter-account name (column10). */
  lemma DeprecatedSenderNameIgnoresColumn10()
    ensures var data := map[0 := Str("2024-01-05+0100"), 1 := Num(1), 14 := Str("CZK"), 10 := Str("Novak")];
            Create(data).Success? &&
            Create(data).value.senderName == Some("Novak") &&
            Create(data).value.DeprecatedSenderName() == None
  {
  }

  /** Columns `create` does not read have no effect on its result. */
  lemma CreateReadsOnlyItsColumns(data: Record, other: Record)
    requires forall c :: c in READ ==> Lookup(data, c) == Lookup(other, c)
    ensures Create(data) == Create(other)
  {
    assert Lookup(data, 22) == Lookup(other, 22);
    assert Lookup(data, 0) == Lookup(other, 0) && Lookup(data, 1) == Lookup(other, 1);
    assert Lookup(data, 14) == Lookup(other, 14) && Lookup(data, 17) == Lookup(other, 17);
    assert Lookup(data, 2) == Lookup(other, 2) && Lookup(data, 3) == Lookup(other, 3);
    assert Lookup(data, 12) == Lookup(other, 12) && Lookup(data, 10) == Lookup(other, 10);
    assert Lookup(data, 4) == Lookup(other, 4) && Lookup(data, 5) == Lookup(other, 5);
    assert Lookup(data, 6) == Lookup(other, 6) && Lookup(data, 7) == Lookup(other, 7);
    assert Lookup(data, 16) == Lookup(other, 16) && Lookup(data, 9) == Lookup(other, 9);
    assert Lookup(data, 25) == Lookup(other, 25) && Lookup(data, 18) == Lookup(other, 18);
    assert Lookup(data, 8) == Lookup(other, 8);
  }

  /** The record the bank sends for t: each field in its column, null fields left out. */
  function Encode(t: Transaction): (data: Record)
    ensures data.Keys <= READ
  {
    map c | c in READ && Field(t, c).Some? :: Field(t, c).value
  }

  /** What a column of the record of t holds. */
  lemma LookupEncode(t: Transaction, c: nat)
    ensures Lookup(Encode(t), c) == if c in READ then Field(t, c) else None
  {
  }

  /** An optional text field survives being written to its column and read back. */
  lemma EncodedText(t: Transaction, c: nat, o: Option<string>)
    requires c in READ && Field(t, c) == TextValue(o)
    ensures TextOrNull(c, Lookup(Encode(t), c)) == Success(o)
  {
    LookupEncode(t, c);
  }

  /** The record of t makes `create` compute exactly t's fields. */
  lemma EncodedArguments(t: Transaction)
    ensures Decodes(Encode(t), t)
  {
    EncodedKeyFields(t);
    EncodedOptionalTexts(t);
  }

  // EncodedArguments, one group of columns at a time.

  lemma EncodedKeyFields(t: Transaction)
    ensures DecodesKeyFields(Encode(t), t)
  {
    var data := Encode(t);
    LookupEncode(t, 22);
    LookupEncode(t, 0);
    LookupEncode(t, 1);
    LookupEncode(t, 14);
    LookupEncode(t, 8);
    LookupEncode(t, 17);
    assert NumberOrNull(17, Lookup(data, 17)) == Success(t.paymentOrderId);
  }

  lemma EncodedOptionalTexts(t: Transaction)
    ensures DecodesOptionalTexts(Encode(t), t)
  {
    EncodedCounterpartyTexts(t);
    EncodedSymbolTexts(t);
    EncodedNoteTexts(t);
  }

  lemma EncodedCounterpartyTexts(t: Transaction)
    ensures TextOrNull(2, Lookup(Encode(t), 2)) == Success(t.accountNumber)
    ensures TextOrNull(3, Lookup(Encode(t), 3)) == Success(t.bankCode)
    ensures TextOrNull(12, Lookup(Encode(t), 12)) == Success(t.bankName)
    ensures TextOrNull(10, Lookup(Encode(t), 10)) == Success(t.senderName)
  {
    EncodedText(t, 2, t.accountNumber);
    EncodedText(t, 3, t.bankCode);
    EncodedText(t, 12, t.bankName);
    EncodedText(t, 10, t.senderName);
  }

  lemma EncodedSymbolTexts(t: Transaction)
    ensures TextOrNull(4, Lookup(Encode(t), 4)) == Success(t.constantSymbol)
    ensures TextOrNull(5, Lookup(Encode(t), 5)) == Success(t.variableSymbol)
    ensures TextOrNull(6, Lookup(Encode(t), 6)) == Success(t.specificSymbol)
    ensures TextOrNull(7, Lookup(Encode(t), 7)) == Success(t.userIdentity)
  {
    EncodedText(t, 4, t.constantSymbol);
    EncodedText(t, 5, t.variableSymbol);
    EncodedText(t, 6, t.specificSymbol);
    EncodedText(t, 7, t.userIdentity);
  }

  lemma EncodedNoteTexts(t: Transaction)
    ensures TextOrNull(16, Lookup(Encode(t), 16)) == Success(t.userMessage)
    ensures TextOrNull(9, Lookup(Encode(t), 9)) == Success(t.performedBy)
    ensures TextOrNull(25, Lookup(Encode(t), 25)) == Success(t.comment)
    ensures TextOrNull(18, Lookup(Encode(t), 18)) == Success(t.specification)
  {
    EncodedText(t, 16, t.userMessage);
    EncodedText(t, 9, t.performedBy);
    EncodedText(t, 25, t.comment);
    EncodedText(t, 18, t.specification);
  }

  /** Decoding the record of a transaction gives back that transaction, field for field. */
  lemma CreateInvertsEncode(t: Transaction)
    ensures Create(Encode(t)) == Success(t)
  {
    EncodedArguments(t);
    CreateIffDecodes(Encode(t), t);
  }

  /** A numeric transaction id is recovered from its string form: distinct ids stay distinct. */
  lemma NumericIdsStayDistinct(d1: Record, d2: Record, t1: Transaction, t2: Transaction)
    requires Create(d1) == Success(t1) && Create(d2) == Success(t2)
    requires 22 in d1 && d1[22].Num?
    requires 22 in d2 && d2[22].Num?
    requires d1[22] != d2[22]
    ensures t1.id != t2.id
  {
  }

  /**
    A record with only the four key columns and the type: every optional
    field is null, the variable symbol included.
   */
  lemma MinimalRecord()
    ensures var data := map[22 := Str("123"), 0 := Str("2024-01-05T00:00:00+0100"),
                            1 := Num(150), 14 := Str("CZK"), 8 := Str("Transfer")];
            Create(data) == Success(Transaction(
              "123", "2024-01-05T00:00:00+0100", 150, "CZK", None, None, None, None,
              None, None, None, None, None, "Transfer", None, None, None, None))
  {
  }
}
