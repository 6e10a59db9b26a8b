/** The text forms of MFA secrets: how a recovery code is shown and read back, and how the parts of an
    encrypted secret are joined and split. */
module RecoveryCodes {
  import opened Sums
  import opened Text

  // ---- Recovery codes ----

  function WithoutDashes(s: string): string {
    if s == "" then "" else if s[0] == '-' then WithoutDashes(s[1..]) else [s[0]] + WithoutDashes(s[1..])
  }

  /** Upper case of the letters a code can contain; other characters stay. */
  function UpperChar(c: char): char {
    if 'a' <= c <= 'z' then (c as int - 'a' as int + 'A' as int) as char else c
  }

  function Upper(s: string): string { seq(|s|, i requires 0 <= i < |s| => UpperChar(s[i])) }

  function Normalize(code: string): string { Upper(Trim(WithoutDashes(code))) }

  /** Twenty hexadecimal digits shown in four groups. */
  function Grouped(raw: string): string
    requires |raw| == 20
  {
    raw[..5] + "-" + raw[5..10] + "-" + raw[10..15] + "-" + raw[15..20]
  }

  /** A code is shown as four groups of five with dashes between them. */
  lemma GroupsOfFive(raw: string, k: nat)
    requires |raw| == 20 && k < 23
    ensures |Grouped(raw)| == 23
    ensures Grouped(raw)[k] == if k % 6 == 5 then '-' else raw[k - k / 6]
  {
  }

  predicate UpperHex(s: string) {
    forall i :: 0 <= i < |s| ==> '0' <= s[i] <= '9' || 'A' <= s[i] <= 'F'
  }

  lemma {:induction false} WithoutDashesConcat(s: string, t: string)
    ensures WithoutDashes(s + t) == WithoutDashes(s) + WithoutDashes(t)
  {
    if s == "" {
      assert s + t == t;
    } else {
      assert (s + t)[1..] == s[1..] + t;
      WithoutDashesConcat(s[1..], t);
    }
  }

  lemma {:induction false} NoDashToRemove(s: string)
    requires forall i :: 0 <= i < |s| ==> s[i] != '-'
    ensures WithoutDashes(s) == s
  {
    if s != "" { NoDashToRemove(s[1..]); }
  }

  lemma Ungroup(s: string, t: string)
    ensures WithoutDashes(s + "-" + t) == WithoutDashes(s) + WithoutDashes(t)
  {
    WithoutDashesConcat(s + "-", t);
    WithoutDashesConcat(s, "-");
    assert WithoutDashes("-") == "";
  }

  lemma Ungrouped(a: string, b: string, c: string, d: string)
    requires UpperHex(a) && UpperHex(b) && UpperHex(c) && UpperHex(d)
    ensures WithoutDashes(a + "-" + b + "-" + c + "-" + d) == a + b + c + d
  {
    hide WithoutDashes;
    Ungroup(a + "-" + b + "-" + c, d);
    Ungroup(a + "-" + b, c);
    Ungroup(a, b);
    NoDashToRemove(a);
    NoDashToRemove(b);
    NoDashToRemove(c);
    NoDashToRemove(d);
  }

  /** The same character, or the lower case of a letter. */
  ghost predicate SameLetter(c: char, upper: char) {
    c == upper || ('A' <= upper <= 'Z' && c as int == upper as int + 32)
  }

  /** However the user types the digits of a code, in either case, with dashes anywhere and spaces around,
      it is read as the code that was hashed. */
  lemma TypedCodeIsRead(typed: string, raw: string, before: string, body: string, after: string)
    requires WithoutDashes(typed) == before + body + after && AllSpace(before) && AllSpace(after)
    requires |body| == |raw| > 0 && UpperHex(raw) && forall i :: 0 <= i < |raw| ==> SameLetter(body[i], raw[i])
    ensures Normalize(typed) == raw
  {
    assert SameLetter(body[0], raw[0]) && SameLetter(body[|body| - 1], raw[|raw| - 1]);
    assert Upper(body) == raw;
    assert Trimmed(body);
    TrimPadded(before, body, after);
  }

  /** The shown form reads back as the digits it was made from. */
  lemma GroupedIsRead(raw: string)
    requires |raw| == 20 && UpperHex(raw)
    ensures Normalize(Grouped(raw)) == raw
  {
    hide Normalize, WithoutDashes;
    var a, b, c, d := raw[..5], raw[5..10], raw[10..15], raw[15..20];
    Ungrouped(a, b, c, d);
    assert a + b + c + d == raw;
    assert WithoutDashes(Grouped(raw)) == "" + raw + "";
    TypedCodeIsRead(Grouped(raw), raw, "", raw, "");
  }

  // ---- The stored form of a secret ----

  const DOT := '.'

  /** String.prototype.split on a dot. */
  function Split(s: string): (parts: seq<string>)
    ensures parts != []
  {
    if s == "" then [""]
    else if s[0] == '.' then [""] + Split(s[1..])
    else
      var rest := Split(s[1..]);
      [[s[0]] + rest[0]] + rest[1..]
  }

  datatype Sealed = Sealed(iv: string, tag: string, text: string)

  function Pack(e: Sealed): string { e.iv + [DOT] + e.tag + [DOT] + e.text }

  /** The first three parts, each of which must be there and not empty. */
  function Unpack(s: string): Option<Sealed> {
    var parts := Split(s);
    if |parts| < 3 || parts[0] == "" || parts[1] == "" || parts[2] == "" then None
    else Some(Sealed(parts[0], parts[1], parts[2]))
  }

  ghost predicate NoDot(s: string) { forall i :: 0 <= i < |s| ==> s[i] != DOT }

  lemma {:induction false} SplitHead(head: string, tail: string)
    requires NoDot(head)
    ensures Split(head + [DOT] + tail) == [head] + Split(tail)
  {
    var s := head + [DOT] + tail;
    if head == "" {
      assert s[1..] == tail;
    } else {
      assert s[1..] == head[1..] + [DOT] + tail;
      SplitHead(head[1..], tail);
      assert Split(s[1..])[1..] == Split(tail);
      assert [head[0]] + head[1..] == head;
    }
  }

  lemma {:induction false} SplitWhole(s: string)
    requires NoDot(s)
    ensures Split(s) == [s]
  {
    if s != "" {
      SplitWhole(s[1..]);
      assert [s[0]] + s[1..] == s;
    }
  }

  /** Unpacking undoes packing of parts without dots exactly when none is empty. */
  lemma UnpackPackIff(e: Sealed)
    requires NoDot(e.iv) && NoDot(e.tag) && NoDot(e.text)
    ensures Unpack(Pack(e)) == Some(e) <==> e.iv != "" && e.tag != "" && e.text != ""
  {
    assert Pack(e) == e.iv + [DOT] + (e.tag + [DOT] + e.text);
    SplitHead(e.iv, e.tag + [DOT] + e.text);
    SplitHead(e.tag, e.text);
    SplitWhole(e.text);
  }

  // ---- Hexadecimal ----

  newtype byte = x: int | 0 <= x < 256

  function Digit(n: int): char
    requires 0 <= n < 16
  {
    if n < 10 then ('0' as int + n) as char else ('a' as int + n - 10) as char
  }

  function DigitValue(c: char): Option<int> {
    if '0' <= c <= '9' then Some(c as int - '0' as int)
    else if 'a' <= c <= 'f' then Some(c as int - 'a' as int + 10)
    else None
  }

  function Hex(bytes: seq<byte>): string {
    if bytes == [] then "" else [Digit(bytes[0] as int / 16), Digit(bytes[0] as int % 16)] + Hex(bytes[1..])
  }

  /** Decoding stops at the first pair that is not two digits. */
  function FromHex(s: string): seq<byte> {
    if |s| < 2 then []
    else
      var high, low := DigitValue(s[0]), DigitValue(s[1]);
      if high.None? || low.None? then [] else [(high.value * 16 + low.value) as byte] + FromHex(s[2..])
  }

  lemma DigitReads(n: int)
    requires 0 <= n < 16
    ensures DigitValue(Digit(n)) == Some(n) && Digit(n) != DOT
  {
  }

  lemma {:induction false} HexReads(bytes: seq<byte>)
    ensures FromHex(Hex(bytes)) == bytes && |Hex(bytes)| == 2 * |bytes| && NoDot(Hex(bytes))
  {
    if bytes != [] {
      var high, low := bytes[0] as int / 16, bytes[0] as int % 16;
      DigitReads(high);
      DigitReads(low);
      HexReads(bytes[1..]);
      assert Hex(bytes)[2..] == Hex(bytes[1..]);
      assert high * 16 + low == bytes[0] as int;
    }
  }

  /** What is stored for a secret: the 12-byte initialisation vector, the 16-byte authentication tag and the
      encrypted text, each in hexadecimal. Every such record reads back as exactly these bytes. */
  lemma {:induction false} StoredSecretReadsBack(iv: seq<byte>, tag: seq<byte>, text: seq<byte>)
    requires |iv| == 12 && |tag| == 16 && text != []
    ensures var stored := Pack(Sealed(Hex(iv), Hex(tag), Hex(text)));
            && Unpack(stored).Some?
            && FromHex(Unpack(stored).value.iv) == iv && FromHex(Unpack(stored).value.tag) == tag
            && FromHex(Unpack(stored).value.text) == text
  {
    HexReads(iv);
    HexReads(tag);
    HexReads(text);
    UnpackPackIff(Sealed(Hex(iv), Hex(tag), Hex(text)));
  }
}
