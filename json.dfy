/** The values an entity can hold, and the replacer that `KafkaStore.stringifyWithBigInt`
    hands to `JSON.stringify`: every bigint becomes its decimal string, everything else
    is passed through. The text `JSON.stringify` then produces is not modelled
    character by character: `JsonText(v)` stands for the serialization of `v`. */
module Json {
  import opened Base

  datatype Value =
    | Undefined
    | Null
    | Bool(b: bool)
    | Num(x: real)
    | Str(s: string)
    | BigInt(n: int)
    | Arr(items: seq<Value>)
    | Obj(fields: seq<Field>)

  datatype Field = Field(key: string, value: Value)

  /** The JSON text `JSON.stringify` produces for a value. It is built only from the
      replaced value, which holds no bigint by the `NoBigInt` ensures of `ReplaceBigInts`. */
  datatype JsonText = JsonText(of: Value)

  predicate NoBigInt(v: Value)
  {
    match v
    case BigInt(_) => false
    case Arr(items) => forall i :: 0 <= i < |items| ==> NoBigInt(items[i])
    case Obj(fields) => forall i :: 0 <= i < |fields| ==> NoBigInt(fields[i].value)
    case _ => true
  }

  predicate IsDigit(c: char)
  {
    '0' <= c <= '9'
  }

  predicate AllDigits(s: string)
  {
    forall i :: 0 <= i < |s| ==> IsDigit(s[i])
  }

  function DigitChar(d: nat): (c: char)
    requires d < 10
    ensures IsDigit(c) && (c as int) - ('0' as int) == d
  {
    (('0' as int) + d) as char
  }

  /** The decimal digits of n, most significant first, with no leading zero. */
  function NatToDecimal(n: nat): (s: string)
    ensures |s| > 0 && AllDigits(s)
    ensures s[0] == '0' <==> n == 0
  {
    if n < 10 then [DigitChar(n)] else NatToDecimal(n / 10) + [DigitChar(n % 10)]
  }

  /** `BigInt.prototype.toString()`: base 10, with a leading '-' for negative values. */
  function DecimalString(n: int): string
  {
    if n < 0 then "-" + NatToDecimal(-n) else NatToDecimal(n)
  }

  /** The number a string of decimal digits denotes. */
  function DigitsValue(s: string): nat
    requires AllDigits(s)
  {
    if s == [] then 0
    else DigitsValue(s[..|s| - 1]) * 10 + ((s[|s| - 1] as int) - ('0' as int))
  }

  /** Reads back a string in the form `DecimalString` writes; None for anything else. */
  function ParseDecimal(s: string): Option<int>
  {
    if |s| > 1 && s[0] == '-' && AllDigits(s[1..]) then Some(-(DigitsValue(s[1..]) as int))
    else if |s| > 0 && AllDigits(s) then Some(DigitsValue(s))
    else None
  }

  lemma {:induction false} NatToDecimalValue(n: nat)
    ensures DigitsValue(NatToDecimal(n)) == n
  {
    if n >= 10 {
      var s := NatToDecimal(n);
      NatToDecimalValue(n / 10);
      assert s[..|s| - 1] == NatToDecimal(n / 10);
    }
  }

  /** The decimal string a bigint is replaced by loses nothing: it reads back as the same integer. */
  lemma DecimalStringRoundTrip(n: int)
    ensures ParseDecimal(DecimalString(n)) == Some(n)
  {
    if n < 0 {
      NatToDecimalValue(-n);
      assert DecimalString(n)[1..] == NatToDecimal(-n);
    } else {
      NatToDecimalValue(n);
    }
  }

  /** The replacer `(_, value) => typeof value === 'bigint' ? value.toString() : value`,
      applied by `JSON.stringify` to the root and to every nested property and element. */
  function ReplaceBigInts(v: Value): (r: Value)
    ensures NoBigInt(r)
  {
    match v
    case BigInt(n) => Str(DecimalString(n))
    case Arr(items) =>
      Arr(seq(|items|, i requires 0 <= i < |items| => ReplaceBigInts(items[i])))
    case Obj(fields) =>
      Obj(seq(|fields|, i requires 0 <= i < |fields| => Field(fields[i].key, ReplaceBigInts(fields[i].value))))
    case _ => v
  }

  /** `stringifyWithBigInt(obj)`. */
  function StringifyWithBigInt(v: Value): JsonText
  {
    JsonText(ReplaceBigInts(v))
  }

  /** Values that hold no bigint pass through the replacer unchanged. */
  lemma {:induction false} ReplaceKeepsOtherValues(v: Value)
    requires NoBigInt(v)
    ensures ReplaceBigInts(v) == v
  {
    match v
    case Arr(items) =>
      forall i | 0 <= i < |items| ensures ReplaceBigInts(items[i]) == items[i] {
        ReplaceKeepsOtherValues(items[i]);
      }
      assert ReplaceBigInts(v).items == items;
    case Obj(fields) =>
      forall i | 0 <= i < |fields| ensures ReplaceBigInts(fields[i].value) == fields[i].value {
        ReplaceKeepsOtherValues(fields[i].value);
      }
      assert ReplaceBigInts(v).fields == fields;
    case _ =>
  }

  /** Replacing twice is replacing once. */
  lemma ReplaceIdempotent(v: Value)
    ensures ReplaceBigInts(ReplaceBigInts(v)) == ReplaceBigInts(v)
  {
    ReplaceKeepsOtherValues(ReplaceBigInts(v));
  }

  /** A bigint value is replaced by a string that reads back as the same integer; for one
      nested in an object or an array see `ReplaceFieldwise` and `ReplaceElementwise`. */
  lemma BigIntBecomesItsDecimal(n: int)
    ensures ReplaceBigInts(BigInt(n)).Str?
    ensures ParseDecimal(ReplaceBigInts(BigInt(n)).s) == Some(n)
  {
    DecimalStringRoundTrip(n);
  }

  /** In an object the replacer keeps every property and its key, in order: a bigint
      property becomes its decimal string, a property holding no bigint is kept as it is,
      and any other property is replaced in turn. */
  lemma ReplaceFieldwise(fields: seq<Field>)
    ensures var r := ReplaceBigInts(Obj(fields));
      && r.Obj? && |r.fields| == |fields|
      && (forall i :: 0 <= i < |fields| ==> r.fields[i].key == fields[i].key)
      && (forall i :: 0 <= i < |fields| ==> r.fields[i].value == ReplaceBigInts(fields[i].value))
      && (forall i :: 0 <= i < |fields| && fields[i].value.BigInt? ==>
            r.fields[i].value == Str(DecimalString(fields[i].value.n)))
      && (forall i :: 0 <= i < |fields| && NoBigInt(fields[i].value) ==> r.fields[i].value == fields[i].value)
  {
    forall i | 0 <= i < |fields| && NoBigInt(fields[i].value)
      ensures ReplaceBigInts(fields[i].value) == fields[i].value
    {
      ReplaceKeepsOtherValues(fields[i].value);
    }
  }

  /** In an array the replacer keeps every element in place: a bigint element becomes its
      decimal string, an element holding no bigint is kept as it is. */
  lemma ReplaceElementwise(items: seq<Value>)
    ensures var r := ReplaceBigInts(Arr(items));
      && r.Arr? && |r.items| == |items|
      && (forall i :: 0 <= i < |items| ==> r.items[i] == ReplaceBigInts(items[i]))
      && (forall i :: 0 <= i < |items| && items[i].BigInt? ==> r.items[i] == Str(DecimalString(items[i].n)))
      && (forall i :: 0 <= i < |items| && NoBigInt(items[i]) ==> r.items[i] == items[i])
  {
    forall i | 0 <= i < |items| && NoBigInt(items[i])
      ensures ReplaceBigInts(items[i]) == items[i]
    {
      ReplaceKeepsOtherValues(items[i]);
    }
  }
}
