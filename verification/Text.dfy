/** The string operations of the service that its rules depend on: trimming and byte length. */
module Text {

  datatype Option<+T> = None | Some(value: T)

  /** The text form of a UUID. */
  type Uuid = s: string | |s| == 36 witness seq(36, _ => '0')

  /** The characters that `unicode.IsSpace` of Go reports, and so the ones `strings.TrimSpace` strips. */
  predicate IsSpace(c: char) {
    var u := c as int;
    || 9 <= u <= 13 || u == 32 || u == 0x85 || u == 0xA0 || u == 0x1680
    || 0x2000 <= u <= 0x200A || u == 0x2028 || u == 0x2029 || u == 0x202F || u == 0x205F || u == 0x3000
  }

  function TrimLeft(s: string): string {
    if s != "" && IsSpace(s[0]) then TrimLeft(s[1..]) else s
  }

  function TrimRight(s: string): string {
    if s != "" && IsSpace(s[|s| - 1]) then TrimRight(s[..|s| - 1]) else s
  }

  function TrimSpace(s: string): string {
    TrimRight(TrimLeft(s))
  }

  predicate Blank(s: string) {
    TrimSpace(s) == ""
  }

  /** A trimmed optional string, absent when nothing is left. */
  function TrimOption(o: Option<string>): Option<string> {
    if o.None? || Blank(o.value) then None else Some(TrimSpace(o.value))
  }

  predicate AllSpace(s: string) {
    forall i :: 0 <= i < |s| ==> IsSpace(s[i])
  }

  lemma {:induction false} TrimRightSplits(s: string) returns (n: nat)
    ensures n <= |s| && TrimRight(s) == s[..n] && AllSpace(s[n..])
    ensures n > 0 ==> !IsSpace(s[n - 1])
  {
    if s != "" && IsSpace(s[|s| - 1]) {
      n := TrimRightSplits(s[..|s| - 1]);
      assert s[..|s| - 1][..n] == s[..n];
      assert s[n..] == s[..|s| - 1][n..] + [s[|s| - 1]];
    } else {
      n := |s|;
    }
  }

  lemma {:induction false} TrimLeftSplits(s: string) returns (n: nat)
    ensures n <= |s| && TrimLeft(s) == s[n..] && AllSpace(s[..n])
    ensures n < |s| ==> !IsSpace(s[n])
  {
    if s != "" && IsSpace(s[0]) {
      n := TrimLeftSplits(s[1..]);
      assert s[..n + 1] == [s[0]] + s[1..][..n];
      n := n + 1;
    } else {
      n := 0;
    }
  }

  /** A trim cuts off spaces only, and all of them: what is left starts and ends with a non-space. */
  lemma TrimSpaceSplits(s: string) returns (i: nat, j: nat)
    ensures i <= j <= |s| && TrimSpace(s) == s[i..j]
    ensures AllSpace(s[..i]) && AllSpace(s[j..])
    ensures i < j ==> !IsSpace(s[i]) && !IsSpace(s[j - 1])
  {
    i := TrimLeftSplits(s);
    var n := TrimRightSplits(s[i..]);
    j := i + n;
    assert s[i..][..n] == s[i..j] && s[i..][n..] == s[j..];
  }

  lemma TrimSpaceFixed(s: string)
    ensures TrimSpace(TrimSpace(s)) == TrimSpace(s)
  {
    var i, j := TrimSpaceSplits(s);
  }

  /** A text that starts and ends with a non-space stays as it is. */
  lemma TrimSpaceOfTight(s: string)
    requires s != "" && !IsSpace(s[0]) && !IsSpace(s[|s| - 1])
    ensures TrimSpace(s) == s
  {
  }

  lemma {:induction false} TrimRightKeepsStart(s: string)
    requires s != "" && !IsSpace(s[0])
    ensures TrimRight(s) != ""
  {
    if IsSpace(s[|s| - 1]) {
      TrimRightKeepsStart(s[..|s| - 1]);
    }
  }

  lemma NonSpaceStartNotBlank(s: string)
    requires s != "" && !IsSpace(s[0])
    ensures !Blank(s)
  {
    TrimRightKeepsStart(s);
  }

  /** Length in UTF-8 bytes: what `len` of a Go string counts. */
  function ByteLen(s: string): nat {
    if s == "" then 0 else Utf8Len(s[0]) + ByteLen(s[1..])
  }

  /** The codes below entry n fit into the payload of n bytes: 7, 11, 16 and 21 bits. */
  const UTF8_CODES: seq<nat> := [0, 0x80, 0x800, 0x1_0000, 0x20_0000]

  /** A character takes the fewest bytes that hold its code. */
  function Utf8Len(c: char): (n: nat)
    ensures 1 <= n <= 4 && UTF8_CODES[n - 1] <= c as int < UTF8_CODES[n]
  {
    var u := c as int;
    if u < 0x80 then 1 else if u < 0x800 then 2 else if u < 0x10000 then 3 else 4
  }

  /** Bytes add up under concatenation, and each character takes one to four, one if it is ASCII. */
  lemma {:induction false} ByteLenAppend(a: string, b: string)
    ensures ByteLen(a + b) == ByteLen(a) + ByteLen(b)
    ensures |a| <= ByteLen(a) <= 4 * |a|
    ensures (forall i :: 0 <= i < |a| ==> a[i] as int < 0x80) ==> ByteLen(a) == |a|
  {
    if a == "" {
      assert a + b == b;
    } else {
      assert (a + b)[1..] == a[1..] + b;
      ByteLenAppend(a[1..], b);
    }
  }

  /** The first value that is present and not blank, trimmed; "" when there is none. */
  function FirstNonEmpty(values: seq<Option<string>>): string {
    if values == [] then ""
    else if TrimOption(values[0]).Some? then TrimOption(values[0]).value
    else FirstNonEmpty(values[1..])
  }

  /** Present, and more than spaces. */
  predicate Given(o: Option<string>) {
    o.Some? && !Blank(o.value)
  }

  /** The first value given is value n, and the result is that value, trimmed. */
  lemma {:induction false} FirstNonEmptyFinds(values: seq<Option<string>>) returns (n: nat)
    ensures n <= |values| && forall i :: 0 <= i < n ==> !Given(values[i])
    ensures FirstNonEmpty(values) == "" <==> n == |values|
    ensures n < |values| ==>
              Given(values[n]) && FirstNonEmpty(values) == TrimSpace(values[n].value) && !Blank(FirstNonEmpty(values))
  {
    n := 0;
    if values != [] {
      if Given(values[0]) {
        TrimSpaceFixed(values[0].value);
      } else {
        n := FirstNonEmptyFinds(values[1..]);
        n := n + 1;
      }
    }
  }

  /** Of two values: the first if given, else the second. */
  lemma FirstOfTwo(a: Option<string>, b: Option<string>)
    ensures FirstNonEmpty([a, b])
            == if Given(a) then TrimSpace(a.value) else if Given(b) then TrimSpace(b.value) else ""
  {
    var values := [a, b];
    var n := FirstNonEmptyFinds(values);
    assert values[0] == a && values[1] == b;
    hide FirstNonEmpty;
  }
}
