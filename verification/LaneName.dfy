/** The durable name of a lane: the text of its partition key, and why two keys never share one
    (`src/lane.rs`). */
module LaneName {
  import opened Options

  datatype Key =
    | Int(value: int)
    | Str(text: string)
    | Uuid(text: string)
    | Timestamp(micros: int)
    | Enum(ty: string, variant: string)

  /** Separates one key's encoding from the next in a composite. */
  const UNIT: char := '\U{1f}'

  /** Separates an enum's type from its variant, inside one key's encoding. */
  const PART: char := '\U{1e}'

  const LANE_MAX: nat := 512

  const ELIDED := "h:"

  const UNREADABLE := "!"

  // ----- the encoding as a function ----------------------------------------

  function Digits(n: nat): string {
    if n < 10 then [('0' as int + n) as char] else Digits(n / 10) + [('0' as int + n % 10) as char]
  }

  function Decimal(n: int): string {
    if n < 0 then "-" + Digits(-n) else Digits(n)
  }

  function EscapeChar(c: char): string {
    if c == '\\' then "\\\\" else if c == UNIT then "\\u" else if c == PART then "\\v" else [c]
  }

  function Escape(text: string): string {
    if text == [] then [] else EscapeChar(text[0]) + Escape(text[1..])
  }

  function KeyText(key: Key): (text: string)
    ensures |text| >= 2
  {
    match key
    case Int(value) => "i:" + Decimal(value)
    case Str(text) => "s:" + Escape(text)
    case Uuid(text) => "u:" + Escape(text)
    case Timestamp(micros) => "t:" + Decimal(micros)
    case Enum(ty, variant) => "e:" + Escape(ty) + [PART] + Escape(variant)
  }

  function KeysText(keys: seq<Key>): string {
    if keys == [] then []
    else if |keys| == 1 then KeyText(keys[0])
    else KeyText(keys[0]) + [UNIT] + KeysText(keys[1..])
  }

  function Utf8Bytes(c: char): nat {
    var point := c as int;
    if point < 0x80 then 1 else if point < 0x800 then 2 else if point < 0x1_0000 then 3 else 4
  }

  function Utf8Length(text: string): nat {
    if text == [] then 0 else Utf8Bytes(text[0]) + Utf8Length(text[1..])
  }

  /** The name of the lane `keys` names; `hash` is the hex digest of a text's bytes. */
  function Name(hash: string -> string, keys: seq<Key>): string {
    var text := KeysText(keys);
    if Utf8Length(text) > LANE_MAX then ELIDED + hash(text) else text
  }

  lemma EscapeNone()
    ensures forall text: string :: text == [] ==> Escape(text) == []
  {
  }

  lemma {:induction false} EscapeJoins(a: string, b: string)
    ensures Escape(a + b) == Escape(a) + Escape(b)
    decreases |a|
  {
    if a == [] {
      assert a + b == b;
    } else {
      assert (a + b)[1..] == a[1..] + b;
      EscapeJoins(a[1..], b);
    }
  }

  lemma EscapeNext(text: string, i: nat)
    requires i < |text|
    ensures Escape(text[..i + 1]) == Escape(text[..i]) + EscapeChar(text[i])
  {
    EscapeJoins(text[..i], [text[i]]);
    assert text[..i + 1] == text[..i] + [text[i]];
  }

  // ----- the encoding as it is built ---------------------------------------

  class Buffer {
    var out: string

    constructor ()
      ensures out == []
    {
      out := [];
    }

    method PushEscaped(text: string)
      modifies this
      ensures out == old(out) + Escape(text)
    {
      hide Escape;
      EscapeNone();
      for i := 0 to |text|
        invariant out == old(out) + Escape(text[..i])
      {
        EscapeNext(text, i);
        if text[i] == '\\' {
          out := out + "\\\\";
        } else if text[i] == UNIT {
          out := out + "\\u";
        } else if text[i] == PART {
          out := out + "\\v";
        } else {
          out := out + [text[i]];
        }
      }
      assert text[..|text|] == text;
    }

    method PushKey(key: Key)
      modifies this
      ensures out == old(out) + KeyText(key)
    {
      hide Escape, Decimal;
      match key
      case Int(value) => out := out + ("i:" + Decimal(value));
      case Str(text) => PushText("s:", text);
      case Uuid(text) => PushText("u:", text);
      case Timestamp(micros) => out := out + ("t:" + Decimal(micros));
      case Enum(ty, variant) =>
        ghost var start := out;
        PushText("e:", ty);
        out := out + [PART];
        assert out == start + ("e:" + Escape(ty) + [PART]);
        PushEscaped(variant);
    }

    method PushText(tag: string, text: string)
      modifies this
      ensures out == old(out) + (tag + Escape(text))
    {
      hide Escape;
      out := out + tag;
      PushEscaped(text);
    }
  }

  method Encode(hash: string -> string, keys: seq<Key>) returns (name: string)
    ensures name == Name(hash, keys)
  {
    var buffer := new Buffer();
    hide KeyText, Utf8Length;
    for i := 0 to |keys|
      invariant fresh(buffer)
      invariant KeysText(keys) == if i == 0 then KeysText(keys[i..])
                                  else if i == |keys| then buffer.out else buffer.out + [UNIT] + KeysText(keys[i..])
      invariant i == 0 ==> buffer.out == []
    {
      if i > 0 {
        buffer.out := buffer.out + [UNIT];
      }
      assert keys[i..][1..] == keys[i + 1..];
      buffer.PushKey(keys[i]);
    }
    name := buffer.out;
    if Utf8Length(name) > LANE_MAX {
      name := ELIDED + hash(name);
    }
  }

  // ----- nothing collides --------------------------------------------------

  predicate Lacks(text: string, c: char) {
    forall i :: 0 <= i < |text| ==> text[i] != c
  }

  lemma {:induction false} DigitsDiffer(m: nat, n: nat)
    requires Digits(m) == Digits(n)
    ensures m == n
    decreases m
  {
    var a, b := Digits(m), Digits(n);
    assert a[|a| - 1] == b[|b| - 1];
    if m >= 10 && n >= 10 {
      assert Digits(m / 10) == a[..|a| - 1] && Digits(n / 10) == b[..|b| - 1];
      DigitsDiffer(m / 10, n / 10);
    } else if m >= 10 {
      DigitsSome(m / 10);
    } else if n >= 10 {
      DigitsSome(n / 10);
    }
  }

  lemma {:induction false} DigitsSome(n: nat)
    ensures |Digits(n)| >= 1 && forall i :: 0 <= i < |Digits(n)| ==> '0' <= Digits(n)[i] <= '9'
  {
    if n >= 10 { DigitsSome(n / 10); }
  }

  lemma DecimalSign(n: int)
    ensures (n < 0) == (Decimal(n)[0] == '-')
    ensures if n < 0 then Decimal(n)[1..] == Digits(-n) else Decimal(n) == Digits(n)
  {
    DigitsSome(if n < 0 then -n else n);
  }

  lemma DecimalDiffer(m: int, n: int)
    requires Decimal(m) == Decimal(n)
    ensures m == n
  {
    DecimalSign(m);
    DecimalSign(n);
    hide Decimal;
    if m < 0 { DigitsDiffer(-m, -n); } else { DigitsDiffer(m, n); }
  }

  lemma DecimalPlain(n: int)
    ensures Lacks(Decimal(n), UNIT) && Lacks(Decimal(n), PART)
  {
    DigitsSome(if n < 0 then -n else n);
  }

  lemma {:induction false} EscapePlain(text: string)
    ensures Lacks(Escape(text), UNIT) && Lacks(Escape(text), PART)
  {
    if text != [] { EscapePlain(text[1..]); }
  }

  /** Escaped texts are equal only if the texts are, whatever separators and backslashes they hold. */
  lemma {:induction false} EscapeDiffer(a: string, b: string)
    requires Escape(a) == Escape(b)
    ensures a == b
    decreases |a|
  {
    if a == [] || b == [] {
      assert |a| > 0 ==> |Escape(a)| > 0;
      assert |b| > 0 ==> |Escape(b)| > 0;
    } else {
      var x, y := EscapeChar(a[0]), EscapeChar(b[0]);
      assert Escape(a)[0] == x[0] && Escape(b)[0] == y[0];
      assert |x| == 2 ==> Escape(a)[1] == x[1];
      assert |y| == 2 ==> Escape(b)[1] == y[1];
      assert a[0] == b[0];
      assert Escape(a)[|x|..] == Escape(a[1..]) && Escape(b)[|y|..] == Escape(b[1..]);
      EscapeDiffer(a[1..], b[1..]);
      assert a == [a[0]] + a[1..] && b == [b[0]] + b[1..];
    }
  }

  /** Texts that lack a separator are told apart around its first occurrence. */
  lemma SplitDiffer(a: string, rest: string, b: string, other: string, separator: char)
    requires Lacks(a, separator) && Lacks(b, separator) && a + [separator] + rest == b + [separator] + other
    ensures a == b && rest == other
  {
    var whole := a + [separator] + rest;
    assert whole[|a|] == separator && whole[|b|] == separator;
    assert forall i :: 0 <= i < |a| ==> whole[i] == a[i] && whole[i] != separator;
    assert forall i :: 0 <= i < |b| ==> whole[i] == b[i] && whole[i] != separator;
    assert |a| == |b|;
    assert a == whole[..|a|] && b == whole[..|b|];
    assert rest == whole[|a| + 1..] && other == whole[|b| + 1..];
  }

  lemma KeyTextPlain(key: Key)
    ensures Lacks(KeyText(key), UNIT)
  {
    match key
    case Int(value) => DecimalPlain(value);
    case Str(text) => EscapePlain(text);
    case Uuid(text) => EscapePlain(text);
    case Timestamp(micros) => DecimalPlain(micros);
    case Enum(ty, variant) => EscapePlain(ty); EscapePlain(variant);
  }

  lemma KeyTextDiffer(a: Key, b: Key)
    requires KeyText(a) == KeyText(b)
    ensures a == b
  {
    hide Escape, Decimal;
    assert KeyText(a)[0] == KeyText(b)[0];
    assert KeyText(a)[2..] == KeyText(b)[2..];
    match a
    case Int(value) =>
      assert KeyText(a)[2..] == Decimal(value) && KeyText(b)[2..] == Decimal(b.value);
      DecimalDiffer(value, b.value);
    case Str(text) =>
      assert KeyText(a)[2..] == Escape(text) && KeyText(b)[2..] == Escape(b.text);
      EscapeDiffer(text, b.text);
    case Uuid(text) =>
      assert KeyText(a)[2..] == Escape(text) && KeyText(b)[2..] == Escape(b.text);
      EscapeDiffer(text, b.text);
    case Timestamp(micros) =>
      assert KeyText(a)[2..] == Decimal(micros) && KeyText(b)[2..] == Decimal(b.micros);
      DecimalDiffer(micros, b.micros);
    case Enum(ty, variant) =>
      assert KeyText(a)[2..] == Escape(ty) + [PART] + Escape(variant);
      assert KeyText(b)[2..] == Escape(b.ty) + [PART] + Escape(b.variant);
      EscapePlain(ty);
      EscapePlain(b.ty);
      SplitDiffer(Escape(ty), Escape(variant), Escape(b.ty), Escape(b.variant), PART);
      EscapeDiffer(ty, b.ty);
      EscapeDiffer(variant, b.variant);
  }

  lemma {:induction false} KeysTextDiffer(a: seq<Key>, b: seq<Key>)
    requires KeysText(a) == KeysText(b)
    ensures a == b
    decreases |a|
  {
    KeysTextSome(a);
    KeysTextSome(b);
    if a != [] && b != [] {
      UnitSeparates(a);
      UnitSeparates(b);
      if |a| == 1 {
        KeyTextDiffer(a[0], b[0]);
      } else {
        KeyTextPlain(a[0]);
        KeyTextPlain(b[0]);
        SplitDiffer(KeyText(a[0]), KeysText(a[1..]), KeyText(b[0]), KeysText(b[1..]), UNIT);
        KeyTextDiffer(a[0], b[0]);
        KeysTextDiffer(a[1..], b[1..]);
        assert a == [a[0]] + a[1..] && b == [b[0]] + b[1..];
      }
    }
  }

  lemma UnitSeparates(keys: seq<Key>)
    requires keys != []
    ensures Lacks(KeysText(keys), UNIT) <==> |keys| == 1
  {
    KeyTextPlain(keys[0]);
    if |keys| > 1 { assert KeysText(keys)[|KeyText(keys[0])|] == UNIT; }
  }

  /** A verbatim name begins with a key tag, and the empty key's with nothing. */
  lemma KeysTextSome(keys: seq<Key>)
    ensures KeysText(keys) == [] <==> keys == []
    ensures keys != [] ==> KeysText(keys)[0] in "isute" && |KeysText(keys)| >= 2
  {
    if keys != [] { assert KeyText(keys[0])[0] in "isute"; }
  }

  ghost predicate CollisionFree(hash: string -> string) {
    forall a: string, b: string :: hash(a) == hash(b) ==> a == b
  }

  /** Two keys share a lane exactly when they are the same key: composites, enums, and texts holding
      separators or backslashes included. */
  lemma NamesInjective(hash: string -> string, a: seq<Key>, b: seq<Key>)
    requires CollisionFree(hash)
    ensures Name(hash, a) == Name(hash, b) <==> a == b
  {
    if Name(hash, a) == Name(hash, b) {
      KeysTextSome(a);
      KeysTextSome(b);
      var x, y := KeysText(a), KeysText(b);
      if Utf8Length(x) > LANE_MAX && Utf8Length(y) > LANE_MAX {
        assert Name(hash, a)[2..] == hash(x) && Name(hash, b)[2..] == hash(y);
      } else if Utf8Length(x) > LANE_MAX {
        ElidedApart(hash(x), b);
      } else if Utf8Length(y) > LANE_MAX {
        ElidedApart(hash(y), a);
      }
      KeysTextDiffer(a, b);
    }
  }

  /** No elided name is a verbatim one. */
  lemma ElidedApart(digest: string, keys: seq<Key>)
    ensures ELIDED + digest != KeysText(keys)
  {
    KeysTextSome(keys);
    assert (ELIDED + digest)[0] == 'h';
  }

  /** No key names the lane of the positions whose key cannot be read. */
  lemma NeverUnreadable(hash: string -> string, keys: seq<Key>)
    ensures Name(hash, keys) != UNREADABLE
  {
    KeysTextSome(keys);
  }

  // ----- what a name shows -------------------------------------------------

  /** A run of decimal digits read as the number they write. */
  function ValueOf(digits: string): int {
    if digits == [] then 0 else ValueOf(digits[..|digits| - 1]) * 10 + (digits[|digits| - 1] as int - '0' as int)
  }

  /** An integer's text is the number in decimal, without a leading zero. */
  lemma {:induction false} DigitsRead(n: nat)
    ensures Digits(n) != [] && ValueOf(Digits(n)) == n && (n > 0 ==> Digits(n)[0] != '0')
    ensures forall i :: 0 <= i < |Digits(n)| ==> '0' <= Digits(n)[i] <= '9'
  {
    if n < 10 {
      assert Digits(n)[..0] == [];
    } else {
      DigitsRead(n / 10);
      assert Digits(n)[..|Digits(n)| - 1] == Digits(n / 10);
    }
  }

  /** A text with none of the three marks in it stands as it is. */
  lemma {:induction false} PlainStands(text: string)
    requires Lacks(text, '\\') && Lacks(text, UNIT) && Lacks(text, PART)
    ensures Escape(text) == text
  {
    if text != [] {
      PlainStands(text[1..]);
      assert EscapeChar(text[0]) == [text[0]];
    }
  }

  /** A character's bytes in UTF-8, as section 3 of RFC 3629 lays them out. */
  function Utf8(c: char): seq<nat> {
    var point := c as int;
    if point < 0x80 then [point]
    else if point < 0x800 then [0xC0 + point / 0x40, 0x80 + point % 0x40]
    else if point < 0x1_0000 then [0xE0 + point / 0x1000, 0x80 + point / 0x40 % 0x40, 0x80 + point % 0x40]
    else [0xF0 + point / 0x4_0000, 0x80 + point / 0x1000 % 0x40, 0x80 + point / 0x40 % 0x40, 0x80 + point % 0x40]
  }

  function Utf8Text(text: string): seq<nat> {
    if text == [] then [] else Utf8(text[0]) + Utf8Text(text[1..])
  }

  /** The length a name is held to is the number of its bytes. */
  lemma {:induction false} Utf8Counts(text: string)
    ensures Utf8Length(text) == |Utf8Text(text)|
  {
    if text != [] { Utf8Counts(text[1..]); }
  }

  /** A name is the key's text for everyone to read exactly when that is short enough, and otherwise the
      digest of that text; and a name always fits where its digest does. */
  lemma VerbatimExactly(hash: string -> string, keys: seq<Key>)
    ensures Name(hash, keys) == KeysText(keys) <==> |Utf8Text(KeysText(keys))| <= LANE_MAX
    ensures |Utf8Text(KeysText(keys))| > LANE_MAX ==> Name(hash, keys) == ELIDED + hash(KeysText(keys))
    ensures |Utf8Text(hash(KeysText(keys)))| <= LANE_MAX - 2 ==> |Utf8Text(Name(hash, keys))| <= LANE_MAX
  {
    var text := KeysText(keys);
    Utf8Counts(text);
    ElidedApart(hash(text), keys);
    assert (ELIDED + hash(text))[1..] == ":" + hash(text) && (ELIDED + hash(text))[1..][1..] == hash(text);
    assert |Utf8Text(ELIDED + hash(text))| == 2 + |Utf8Text(hash(text))|;
  }
}
