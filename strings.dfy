/**
 * The Python string operations the sensor relies on, on `seq<char>`:
 * `str(int)`, `s.replace("_", " ")`, `s.title()` on ASCII text,
 * `"; ".join(parts)` and `template.format(**placeholders)` for templates whose
 * replacement fields are plain names.
 */
module Strings {

  // ---------------------------------------------------------------------------
  // str(n)

  /** The character of decimal digit `d`. */
  function DigitChar(d: nat): (c: char)
    requires d < 10
    ensures IsDigit(c) && c as int - '0' as int == d
  {
    ('0' as int + d) as char
  }

  predicate IsDigit(c: char) {
    '0' <= c <= '9'
  }

  /** The decimal digits of `n`, without leading zeros. */
  function NatToString(n: nat): string
    decreases n
  {
    if n < 10 then [DigitChar(n)] else NatToString(n / 10) + [DigitChar(n % 10)]
  }

  /** `str(i)` for a Python int. */
  function IntToString(i: int): string {
    if i < 0 then "-" + NatToString(-i) else NatToString(i)
  }

  /** Reads a string of decimal digits back as a number. */
  function ParseDigits(s: string): nat
    requires forall c :: c in s ==> IsDigit(c)
    decreases |s|
  {
    if s == [] then 0
    else
      var d := s[|s| - 1];
      assert d in s && IsDigit(d);
      assert forall c :: c in s[..|s| - 1] ==> c in s;
      10 * ParseDigits(s[..|s| - 1]) + (d as int - '0' as int)
  }

  /** `str(n)` is a non-empty run of digits that reads back as `n`. */
  lemma {:induction false} NatToStringRoundTrip(n: nat)
    ensures |NatToString(n)| > 0
    ensures forall c :: c in NatToString(n) ==> IsDigit(c)
    ensures ParseDigits(NatToString(n)) == n
    decreases n
  {
    if n >= 10 {
      NatToStringRoundTrip(n / 10);
      var s := NatToString(n);
      assert s[..|s| - 1] == NatToString(n / 10);
    }
  }

  // ---------------------------------------------------------------------------
  // replace("_", " ") and title()

  /** `s.replace("_", " ")`: every underscore becomes a space, nothing else changes. */
  function UnderscoresToSpaces(s: string): string {
    seq(|s|, i requires 0 <= i < |s| => if s[i] == '_' then ' ' else s[i])
  }

  predicate IsUpper(c: char) { 'A' <= c <= 'Z' }
  predicate IsLower(c: char) { 'a' <= c <= 'z' }
  predicate IsLetter(c: char) { IsUpper(c) || IsLower(c) }

  function ToUpper(c: char): (u: char)
    ensures IsLetter(c) ==> IsUpper(u)
  {
    if IsLower(c) then (c as int - 32) as char else c
  }

  function ToLower(c: char): (l: char)
    ensures IsLetter(c) ==> IsLower(l)
  {
    if IsUpper(c) then (c as int + 32) as char else c
  }

  /** The title-cased form of `c`, given whether the character before it is a letter. */
  function TitleChar(c: char, afterLetter: bool): (t: char)
    ensures IsLetter(t) == IsLetter(c)
  {
    if !IsLetter(c) then c else if afterLetter then ToLower(c) else ToUpper(c)
  }

  /**
   * `s.title()` on ASCII text: a letter is upper-cased when the character before
   * it is not a letter (or it is first) and lower-cased otherwise.
   */
  function Title(s: string): string {
    seq(|s|, i requires 0 <= i < |s| => TitleChar(s[i], i > 0 && IsLetter(s[i - 1])))
  }

  // ---------------------------------------------------------------------------
  // "; ".join(parts)

  const Separator := "; "

  /** `sep.join(parts)` */
  function Join(parts: seq<string>, sep: string): string {
    if |parts| == 0 then ""
    else if |parts| == 1 then parts[0]
    else parts[0] + sep + Join(parts[1..], sep)
  }

  /** How many times `"; "` occurs in `s` (overlaps cannot happen). */
  function SeparatorCount(s: string): nat {
    if |s| < 2 then 0
    else (if s[..2] == Separator then 1 else 0) + SeparatorCount(s[1..])
  }

  lemma {:induction false} SeparatorCountConcat(a: string, b: string)
    ensures SeparatorCount(a + b) == SeparatorCount(a) + SeparatorCount(b)
      + if a != [] && b != [] && a[|a| - 1] == ';' && b[0] == ' ' then 1 else 0
    decreases |a|
  {
    if a == [] {
      assert a + b == b;
    } else if |a| == 1 {
      if |b| >= 1 {
        assert (a + b)[1..] == b;
        assert (a + b)[..2] == [a[0], b[0]];
      }
    } else {
      SeparatorCountConcat(a[1..], b);
      assert (a + b)[1..] == a[1..] + b;
      assert (a + b)[..2] == a[..2];
    }
  }

  /** Joining with `"; "` adds exactly one separator between neighbouring parts. */
  lemma {:induction false} JoinSeparatorCount(parts: seq<string>)
    requires |parts| > 0
    requires forall q :: 0 <= q < |parts| ==> SeparatorCount(parts[q]) == 0
    ensures SeparatorCount(Join(parts, Separator)) == |parts| - 1
  {
    if |parts| > 1 {
      JoinSeparatorCount(parts[1..]);
      var rest := Join(parts[1..], Separator);
      SeparatorCountConcat(parts[0], Separator);
      SeparatorCountConcat(parts[0] + Separator, rest);
      assert SeparatorCount(Separator) == 1;
      assert parts[0] + Separator + rest == Join(parts, Separator);
    }
  }

  /** A string without `';'` holds no separator. */
  lemma {:induction false} NoSemicolonNoSeparator(s: string)
    requires ';' !in s
    ensures SeparatorCount(s) == 0
  {
    if |s| >= 2 {
      assert s[0] != ';';
      NoSemicolonNoSeparator(s[1..]);
    }
  }

  // ---------------------------------------------------------------------------
  // template.format(**placeholders)

  /** What `str.format` does: a string, or one of the two exceptions the sensor catches. */
  datatype FormatResult = Formatted(text: string) | KeyError(name: string) | ValueError

  function Prepend(s: string, r: FormatResult): FormatResult {
    if r.Formatted? then Formatted(s + r.text) else r
  }

  predicate BraceFree(s: string) {
    '{' !in s && '}' !in s
  }

  /** The replacement field `{name}`. */
  function Field(name: string): string {
    "{" + name + "}"
  }

  /**
   * `t.format(**ph)`, read left to right: `{{` and `}}` stand for one brace,
   * `{name}` for `ph[name]` (KeyError when absent), and a brace that opens no
   * complete field or a lone `}` is a ValueError. A KeyError always names a
   * field that has no placeholder.
   */
  function Format(t: string, ph: map<string, string>): (r: FormatResult)
    ensures r.KeyError? ==> r.name !in ph
    decreases |t|
  {
    if t == [] then Formatted("")
    else if t[0] == '{' then
      if |t| > 1 && t[1] == '{' then Prepend("{", Format(t[2..], ph))
      else FormatFieldName(t[1..], ph, "")
    else if t[0] == '}' then
      if |t| > 1 && t[1] == '}' then Prepend("}", Format(t[2..], ph)) else ValueError
    else Prepend([t[0]], Format(t[1..], ph))
  }

  /** Inside a replacement field whose name so far is `name`. */
  function FormatFieldName(t: string, ph: map<string, string>, name: string): (r: FormatResult)
    ensures r.KeyError? ==> r.name !in ph
    decreases |t|
  {
    if t == [] || t[0] == '{' then ValueError
    else if t[0] == '}' then
      if name in ph then Prepend(ph[name], Format(t[1..], ph)) else KeyError(name)
    else FormatFieldName(t[1..], ph, name + [t[0]])
  }

  lemma PrependPrepend(a: string, b: string, r: FormatResult)
    ensures Prepend(a, Prepend(b, r)) == Prepend(a + b, r)
  {
    if r.Formatted? {
      assert a + (b + r.text) == (a + b) + r.text;
    }
  }

  /** Text without braces is copied through unchanged. */
  lemma {:induction false} FormatLiteral(lit: string, rest: string, ph: map<string, string>)
    requires BraceFree(lit)
    ensures Format(lit + rest, ph) == Prepend(lit, Format(rest, ph))
    decreases |lit|
  {
    if lit == [] {
      assert lit + rest == rest;
      assert Prepend(lit, Format(rest, ph)) == Format(rest, ph);
    } else {
      var t := lit + rest;
      assert t[0] == lit[0] && t[1..] == lit[1..] + rest;
      FormatLiteral(lit[1..], rest, ph);
      PrependPrepend([lit[0]], lit[1..], Format(rest, ph));
      assert [lit[0]] + lit[1..] == lit;
    }
  }

  /** A brace-free template formats to itself, whatever the placeholders. */
  lemma FormatBraceFree(t: string, ph: map<string, string>)
    requires BraceFree(t)
    ensures Format(t, ph) == Formatted(t)
  {
    FormatLiteral(t, "", ph);
    assert t + "" == t;
  }

  /** A field `{name}` is replaced by its placeholder, or raises KeyError. */
  lemma FormatField(name: string, rest: string, ph: map<string, string>)
    requires BraceFree(name) && name != ""
    ensures Format(Field(name) + rest, ph) ==
      if name in ph then Prepend(ph[name], Format(rest, ph)) else KeyError(name)
  {
    var t := Field(name) + rest;
    assert t[0] == '{' && t[1] == name[0] && t[1..] == name + ("}" + rest);
    FieldNameRead(name, rest, ph, "");
    assert "" + name == name;
  }

  /** A brace-free name followed by `}` is read to its end. */
  lemma {:induction false} FieldNameRead(name: string, rest: string, ph: map<string, string>, acc: string)
    requires BraceFree(name)
    ensures FormatFieldName(name + ("}" + rest), ph, acc) ==
      if acc + name in ph then Prepend(ph[acc + name], Format(rest, ph)) else KeyError(acc + name)
    decreases |name|
  {
    var t := name + ("}" + rest);
    if name == [] {
      assert t == "}" + rest && t[1..] == rest;
      assert acc + name == acc;
    } else {
      assert t[0] == name[0] && name[0] in name;
      assert t[1..] == name[1..] + ("}" + rest);
      assert BraceFree(name[1..]) by {
        assert forall c :: c in name[1..] ==> c in name;
      }
      FieldNameRead(name[1..], rest, ph, acc + [name[0]]);
      assert acc + [name[0]] + name[1..] == acc + name;
    }
  }

  /** A field followed by literal text: both are emitted, then the rest is formatted. */
  lemma FormatFieldText(name: string, lit: string, rest: string, ph: map<string, string>)
    requires BraceFree(name) && name != "" && BraceFree(lit) && name in ph
    ensures Format(Field(name) + (lit + rest), ph) == Prepend(ph[name] + lit, Format(rest, ph))
  {
    FormatField(name, lit + rest, ph);
    FormatLiteral(lit, rest, ph);
    PrependPrepend(ph[name], lit, Format(rest, ph));
  }

  /** A template made of fields, each followed by literal text. */
  function FieldsTemplate(fields: seq<(string, string)>): string {
    if fields == [] then "" else Field(fields[0].0) + (fields[0].1 + FieldsTemplate(fields[1..]))
  }

  /** `FieldsTemplate(fields)` with every field replaced by its placeholder. */
  function FieldsFilled(fields: seq<(string, string)>, ph: map<string, string>): string
    requires forall f :: f in fields ==> f.0 in ph
  {
    if fields == [] then "" else ph[fields[0].0] + (fields[0].1 + FieldsFilled(fields[1..], ph))
  }

  /** Such a template formats without error when every field has a placeholder. */
  lemma {:induction false} FormatFieldsTemplate(fields: seq<(string, string)>, ph: map<string, string>)
    requires forall f :: f in fields ==> BraceFree(f.0) && f.0 != "" && BraceFree(f.1) && f.0 in ph
    ensures Format(FieldsTemplate(fields), ph) == Formatted(FieldsFilled(fields, ph))
  {
    if fields != [] {
      assert fields[0] in fields;
      assert forall f :: f in fields[1..] ==> f in fields;
      FormatFieldsTemplate(fields[1..], ph);
      FormatFieldText(fields[0].0, fields[0].1, FieldsTemplate(fields[1..]), ph);
      var a, b, c := ph[fields[0].0], fields[0].1, FieldsFilled(fields[1..], ph);
      assert a + b + c == a + (b + c);
    }
  }

  /** Every field of a template has a non-empty brace-free name and brace-free text after it. */
  predicate WellFormedFields(fields: seq<(string, string)>) {
    forall f :: f in fields ==> BraceFree(f.0) && f.0 != "" && BraceFree(f.1)
  }

  lemma WellFormedTwo(n1: string, l1: string, n2: string, l2: string)
    requires BraceFree(n1) && n1 != "" && BraceFree(l1)
    requires BraceFree(n2) && n2 != "" && BraceFree(l2)
    ensures WellFormedFields([(n1, l1), (n2, l2)])
  {
  }

  lemma WellFormedThree(n1: string, l1: string, n2: string, l2: string, n3: string, l3: string)
    requires BraceFree(n1) && n1 != "" && BraceFree(l1)
    requires BraceFree(n2) && n2 != "" && BraceFree(l2)
    requires BraceFree(n3) && n3 != "" && BraceFree(l3)
    ensures WellFormedFields([(n1, l1), (n2, l2), (n3, l3)])
  {
  }

  /** Such a template raises KeyError when one of its fields has no placeholder. */
  lemma {:induction false} FormatFieldsTemplateMissing(fields: seq<(string, string)>, ph: map<string, string>)
    requires WellFormedFields(fields)
    requires exists f :: f in fields && f.0 !in ph
    ensures Format(FieldsTemplate(fields), ph).KeyError?
  {
    var name, lit, rest := fields[0].0, fields[0].1, FieldsTemplate(fields[1..]);
    assert fields[0] in fields;
    FormatField(name, lit + rest, ph);
    if name in ph {
      var f :| f in fields && f.0 !in ph;
      assert fields == [fields[0]] + fields[1..];
      assert f in fields[1..];
      assert forall g :: g in fields[1..] ==> g in fields;
      FormatFieldsTemplateMissing(fields[1..], ph);
      FormatLiteral(lit, rest, ph);
    }
  }

  /** The template of two fields, spelled out. */
  lemma TwoFieldsShape(n1: string, l1: string, n2: string, l2: string)
    ensures FieldsTemplate([(n1, l1), (n2, l2)]) == Field(n1) + l1 + Field(n2) + l2
  {
    var fields := [(n1, l1), (n2, l2)];
    assert fields[1..] == [(n2, l2)] && fields[1..][1..] == [];
    assert FieldsTemplate(fields[1..]) == Field(n2) + (l2 + "");
    assert Field(n1) + (l1 + (Field(n2) + (l2 + ""))) == Field(n1) + l1 + Field(n2) + l2;
  }

  /** The template of three fields, spelled out. */
  lemma ThreeFieldsShape(n1: string, l1: string, n2: string, l2: string, n3: string, l3: string)
    ensures FieldsTemplate([(n1, l1), (n2, l2), (n3, l3)]) == Field(n1) + l1 + Field(n2) + l2 + Field(n3) + l3
  {
    var fields := [(n1, l1), (n2, l2), (n3, l3)];
    assert fields[1..] == [(n2, l2), (n3, l3)];
    TwoFieldsShape(n2, l2, n3, l3);
    var a, b, c := Field(n1), l1, Field(n2) + l2 + Field(n3) + l3;
    assert a + (b + c) == Field(n1) + l1 + Field(n2) + l2 + Field(n3) + l3;
  }

  /** A template `{n1}l1` formats into `ph[n1] + l1`. */
  lemma FormatOneField(n1: string, l1: string, ph: map<string, string>)
    requires BraceFree(n1) && n1 != "" && BraceFree(l1) && n1 in ph
    ensures Format(Field(n1) + l1, ph) == Formatted(ph[n1] + l1)
  {
    var fields := [(n1, l1)];
    assert fields[1..] == [];
    assert Field(n1) + l1 == FieldsTemplate(fields);
    FormatFieldsTemplate(fields, ph);
  }

  /** A template `{n1}l1{n2}l2` formats into `ph[n1] + l1 + ph[n2] + l2`. */
  lemma FormatTwoFields(n1: string, l1: string, n2: string, l2: string, ph: map<string, string>)
    requires BraceFree(n1) && n1 != "" && BraceFree(l1) && n1 in ph
    requires BraceFree(n2) && n2 != "" && BraceFree(l2) && n2 in ph
    ensures Format(Field(n1) + l1 + Field(n2) + l2, ph) == Formatted(ph[n1] + l1 + ph[n2] + l2)
  {
    var fields := [(n1, l1), (n2, l2)];
    TwoFieldsSpelled(n1, l1, n2, l2, ph);
    FormatFieldsTemplate(fields, ph);
  }

  lemma TwoFieldsSpelled(n1: string, l1: string, n2: string, l2: string, ph: map<string, string>)
    requires n1 in ph && n2 in ph
    ensures FieldsTemplate([(n1, l1), (n2, l2)]) == Field(n1) + l1 + Field(n2) + l2
    ensures FieldsFilled([(n1, l1), (n2, l2)], ph) == ph[n1] + l1 + ph[n2] + l2
  {
    var fields := [(n1, l1), (n2, l2)];
    assert fields[1..] == [(n2, l2)] && fields[1..][1..] == [];
    assert FieldsTemplate(fields[1..]) == Field(n2) + (l2 + "");
    assert Field(n1) + (l1 + (Field(n2) + (l2 + ""))) == Field(n1) + l1 + Field(n2) + l2;
    assert FieldsFilled(fields[1..], ph) == ph[n2] + (l2 + "");
    assert ph[n1] + (l1 + (ph[n2] + (l2 + ""))) == ph[n1] + l1 + ph[n2] + l2;
  }

  /** A template `{n1}l1{n2}l2{n3}l3` formats into `ph[n1] + l1 + ph[n2] + l2 + ph[n3] + l3`. */
  lemma FormatThreeFields(n1: string, l1: string, n2: string, l2: string, n3: string, l3: string,
                          ph: map<string, string>)
    requires BraceFree(n1) && n1 != "" && BraceFree(l1) && n1 in ph
    requires BraceFree(n2) && n2 != "" && BraceFree(l2) && n2 in ph
    requires BraceFree(n3) && n3 != "" && BraceFree(l3) && n3 in ph
    ensures Format(Field(n1) + l1 + Field(n2) + l2 + Field(n3) + l3, ph)
      == Formatted(ph[n1] + l1 + ph[n2] + l2 + ph[n3] + l3)
  {
    var fields := [(n1, l1), (n2, l2), (n3, l3)];
    ThreeFieldsSpelled(n1, l1, n2, l2, n3, l3, ph);
    FormatFieldsTemplate(fields, ph);
  }

  lemma ThreeFieldsSpelled(n1: string, l1: string, n2: string, l2: string, n3: string, l3: string,
                           ph: map<string, string>)
    requires n1 in ph && n2 in ph && n3 in ph
    ensures FieldsTemplate([(n1, l1), (n2, l2), (n3, l3)])
      == Field(n1) + l1 + Field(n2) + l2 + Field(n3) + l3
    ensures FieldsFilled([(n1, l1), (n2, l2), (n3, l3)], ph)
      == ph[n1] + l1 + ph[n2] + l2 + ph[n3] + l3
  {
    var fields := [(n1, l1), (n2, l2), (n3, l3)];
    assert fields[1..] == [(n2, l2), (n3, l3)];
    TwoFieldsSpelled(n2, l2, n3, l3, ph);
  }
}
