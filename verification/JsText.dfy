/** The white space that JavaScript's `trim` removes. */
module JsText {
  predicate IsSpace(c: char) {
    c as int in {0x09, 0x0A, 0x0B, 0x0C, 0x0D, 0x20, 0xA0, 0x1680, 0x2028, 0x2029, 0x202F, 0x205F, 0x3000, 0xFEFF}
    || 0x2000 <= c as int <= 0x200A
  }

  function Trim(text: string): string
    decreases |text|
  {
    if text == "" then ""
    else if IsSpace(text[0]) then Trim(text[1..])
    else if IsSpace(text[|text| - 1]) then Trim(text[..|text| - 1])
    else text
  }

  predicate Blank(text: string) {
    Trim(text) == ""
  }

  /** All that stands before `i` and from `j` on is white space. */
  predicate SpaceAround(text: string, i: nat, j: nat) {
    && i <= j <= |text|
    && (forall n :: 0 <= n < i ==> IsSpace(text[n]))
    && (forall n :: j <= n < |text| ==> IsSpace(text[n]))
  }

  predicate Bare(core: string) {
    core != "" ==> !IsSpace(core[0]) && !IsSpace(core[|core| - 1])
  }

  /** `core` is the text without the white space around it. */
  ghost predicate IsCore(text: string, core: string) {
    Bare(core) && exists i: nat, j: nat :: SpaceAround(text, i, j) && text[i..j] == core
  }

  lemma {:induction false} SpaceBefore(text: string, i: nat, j: nat)
    requires text != "" && IsSpace(text[0]) && SpaceAround(text[1..], i, j)
    ensures SpaceAround(text, i + 1, j + 1) && text[1..][i..j] == text[i + 1..j + 1]
  {
    var rest := text[1..];
    assert forall n :: 0 < n < |text| ==> text[n] == rest[n - 1];
  }

  lemma {:induction false} SpaceBehind(text: string, i: nat, j: nat)
    requires text != "" && IsSpace(text[|text| - 1]) && SpaceAround(text[..|text| - 1], i, j)
    ensures SpaceAround(text, i, j) && text[..|text| - 1][i..j] == text[i..j]
  {
    var rest := text[..|text| - 1];
    assert forall n :: 0 <= n < |rest| ==> text[n] == rest[n];
  }

  lemma {:induction false} TrimSplits(text: string) returns (i: nat, j: nat)
    ensures SpaceAround(text, i, j) && Trim(text) == text[i..j] && Bare(Trim(text))
    decreases |text|
  {
    if text == "" {
      i, j := 0, 0;
    } else if IsSpace(text[0]) {
      i, j := TrimSplits(text[1..]);
      SpaceBefore(text, i, j);
      i, j := i + 1, j + 1;
    } else if IsSpace(text[|text| - 1]) {
      i, j := TrimSplits(text[..|text| - 1]);
      SpaceBehind(text, i, j);
    } else {
      i, j := 0, |text|;
    }
  }

  /** What is no white space lies in every core. */
  lemma MarkInside(text: string, n: nat, i: nat, j: nat)
    requires n < |text| && !IsSpace(text[n]) && SpaceAround(text, i, j)
    ensures i <= n < j
  {
  }

  /** A text has one core. */
  lemma {:induction false} OneCore(text: string, i: nat, j: nat, k: nat, l: nat)
    requires SpaceAround(text, i, j) && Bare(text[i..j]) && SpaceAround(text, k, l) && Bare(text[k..l])
    ensures text[i..j] == text[k..l]
  {
    if i < j {
      MarkInside(text, i, k, l);
      MarkInside(text, j - 1, k, l);
    }
    if k < l {
      MarkInside(text, k, i, j);
      MarkInside(text, l - 1, i, j);
    }
  }

  /** `Trim` takes away the white space around a text, all of it, and nothing else. */
  lemma {:induction false} TrimExactly(text: string, core: string)
    ensures Trim(text) == core <==> IsCore(text, core)
  {
    var i, j := TrimSplits(text);
    if IsCore(text, core) {
      var k: nat, l: nat :| SpaceAround(text, k, l) && text[k..l] == core;
      OneCore(text, i, j, k, l);
    }
  }

  /** The text has a character that is no white space. */
  predicate HasMark(text: string) {
    exists i :: 0 <= i < |text| && !IsSpace(text[i])
  }

  lemma {:induction false} BlankExactly(text: string)
    ensures Blank(text) <==> !HasMark(text)
  {
    var i, j := TrimSplits(text);
    if i < j {
      assert !IsSpace(text[i]);
    }
  }

  lemma {:induction false} TrimOnce(text: string)
    ensures Trim(Trim(text)) == Trim(text)
  {
    var i, j := TrimSplits(text);
    var core := Trim(text);
    assert SpaceAround(core, 0, |core|) && core[0..|core|] == core;
    TrimExactly(core, core);
  }

  /** Text that is added behind another leaves its core at the beginning. */
  lemma {:induction false} TrimKeepsBeginning(text: string, more: string)
    requires text != "" && Bare(text)
    ensures text <= Trim(text + more)
  {
    var all := text + more;
    var i, j := TrimSplits(all);
    MarkInside(all, 0, i, j);
    MarkInside(all, |text| - 1, i, j);
    assert all[0..j][..|text|] == text;
  }
}
