/** JavaScript values as the protocol engine sees them: which fields are
    present, whether a value is truthy, and its string form (template
    literals such as `${e}` and object property keys). */
module Js {

  datatype Option<+T> = None | Some(value: T)

  /** How a promise eventually settles. */
  datatype Settlement = Resolved(value: Value) | Rejected(reason: Value)

  /** An opaque JavaScript value. Numbers are integers; `Obj` carries its own
      string conversion; a `Promise` carries the way it will settle. */
  datatype Value =
    | Undefined
    | Null
    | Bool(b: bool)
    | Num(n: int)
    | Str(s: string)
    | Obj(ref: nat, text: string)
    | Promise(ref: nat, outcome: Settlement)

  /** `x !== undefined` */
  predicate Defined(v: Value) { v != Undefined }

  /** JavaScript truthiness: `undefined`, `null`, `false`, `0` and `''` are falsy. */
  predicate Truthy(v: Value)
  {
    match v
    case Undefined => false
    case Null => false
    case Bool(b) => b
    case Num(n) => n != 0
    case Str(s) => s != ""
    case Obj(_, _) => true
    case Promise(_, _) => true
  }

  /** `x?.then && x?.catch`: only promises are thenables here. */
  predicate Thenable(v: Value) { v.Promise? }

  function DigitChar(d: nat): char
    requires d < 10
  {
    ('0' as int + d) as char
  }

  /** Decimal digits of a natural number, most significant first. */
  function Digits(n: nat): (r: string)
    ensures |r| > 0 && forall i :: 0 <= i < |r| ==> '0' <= r[i] <= '9'
    decreases n
  {
    if n < 10 then [DigitChar(n)] else Digits(n / 10) + [DigitChar(n % 10)]
  }

  function NumberText(n: int): string
  {
    if n < 0 then "-" + Digits(-n) else Digits(n)
  }

  /** `${v}`, which is also the key under which `v` is stored in a plain object. */
  function ToStr(v: Value): string
  {
    match v
    case Undefined => "undefined"
    case Null => "null"
    case Bool(b) => if b then "true" else "false"
    case Num(n) => NumberText(n)
    case Str(s) => s
    case Obj(_, text) => text
    case Promise(_, _) => "[object Promise]"
  }

  lemma {:induction false} DigitsInjective(a: nat, b: nat)
    requires Digits(a) == Digits(b)
    ensures a == b
    decreases a
  {
    var da, db := Digits(a), Digits(b);
    if a < 10 && b < 10 {
      assert DigitChar(a) == da[0] == db[0] == DigitChar(b);
    } else if 10 <= a && 10 <= b {
      assert da[..|da| - 1] == Digits(a / 10);
      assert db[..|db| - 1] == Digits(b / 10);
      DigitsInjective(a / 10, b / 10);
      assert DigitChar(a % 10) == da[|da| - 1] == db[|db| - 1] == DigitChar(b % 10);
    }
  }

  lemma SignShown(n: int)
    ensures |NumberText(n)| > 0 && (NumberText(n)[0] == '-' <==> n < 0)
  {
  }

  /** Distinct numbers have distinct string forms, so numeric ids never
      collide as object keys. */
  lemma NumberKeysDistinct(a: int, b: int)
    requires ToStr(Num(a)) == ToStr(Num(b))
    ensures a == b
  {
    NumberTextInjective(a, b);
  }

  lemma NumberTextInjective(a: int, b: int)
    requires NumberText(a) == NumberText(b)
    ensures a == b
  {
    var ta, tb := NumberText(a), NumberText(b);
    SignShown(a);
    SignShown(b);
    assert (a < 0) == (b < 0) by {
      assert ta[0] == tb[0];
    }
    if a < 0 {
      assert Digits(-a) == ta[1..] == tb[1..] == Digits(-b);
      DigitsInjective(-a, -b);
    } else {
      DigitsInjective(a, b);
    }
  }

  /** Object keys are strings: a number and its decimal text name the same
      key, so the string "3" and the number 3 reach the same entry. */
  lemma StringAndNumberKeysCoincide(n: int)
    ensures ToStr(Str(NumberText(n))) == ToStr(Num(n))
    ensures ToStr(Str("3")) == ToStr(Num(3))
    ensures ToStr(Str("12")) == ToStr(Num(12))
  {
    assert Digits(12) == Digits(1) + [DigitChar(2)];
  }
}
