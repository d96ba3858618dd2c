/** A person's note as the store weighs it: surrounding space removed, then counted in UTF-8 bytes. */
module Notes {

  /** White space as Unicode's White_Space property has it. */
  predicate IsSpace(c: char)
  {
    var code := c as int;
    || 0x09 <= code <= 0x0d || code == 0x20 || code == 0x85 || code == 0xa0 || code == 0x1680
    || 0x2000 <= code <= 0x200a || code == 0x2028 || code == 0x2029 || code == 0x202f || code == 0x205f || code == 0x3000
  }

  predicate Blank(text: string)
  {
    forall i :: 0 <= i < |text| ==> IsSpace(text[i])
  }

  function LeftTrimmed(note: string): string
  {
    if note != "" && IsSpace(note[0]) then LeftTrimmed(note[1..]) else note
  }

  function RightTrimmed(note: string): string
  {
    if note != "" && IsSpace(note[|note| - 1]) then RightTrimmed(note[..|note| - 1]) else note
  }

  function Trimmed(note: string): string
  {
    RightTrimmed(LeftTrimmed(note))
  }

  lemma {:induction false} LeftTrimmedExactly(note: string) returns (before: string)
    ensures note == before + LeftTrimmed(note) && Blank(before)
    ensures LeftTrimmed(note) != "" ==> !IsSpace(LeftTrimmed(note)[0])
    decreases |note|
  {
    before := "";
    if note != "" && IsSpace(note[0]) {
      var rest := LeftTrimmedExactly(note[1..]);
      before := [note[0]] + rest;
      assert before + LeftTrimmed(note) == [note[0]] + (rest + LeftTrimmed(note[1..]));
    }
  }

  lemma {:induction false} RightTrimmedExactly(note: string) returns (after: string)
    ensures note == RightTrimmed(note) + after && Blank(after)
    ensures RightTrimmed(note) != "" ==> !IsSpace(RightTrimmed(note)[|RightTrimmed(note)| - 1])
    decreases |note|
  {
    after := "";
    if note != "" && IsSpace(note[|note| - 1]) {
      var rest := RightTrimmedExactly(note[..|note| - 1]);
      after := rest + [note[|note| - 1]];
      assert RightTrimmed(note) + after == (RightTrimmed(note[..|note| - 1]) + rest) + [note[|note| - 1]];
    }
  }

  /** Trimming removes nothing but space, and leaves none at either end. */
  lemma TrimmedExactly(note: string) returns (before: string, after: string)
    ensures note == before + Trimmed(note) + after && Blank(before) && Blank(after)
    ensures Trimmed(note) != "" ==> !IsSpace(Trimmed(note)[0]) && !IsSpace(Trimmed(note)[|Trimmed(note)| - 1])
  {
    var rest := LeftTrimmed(note);
    before := LeftTrimmedExactly(note);
    after := RightTrimmedExactly(rest);
    assert before + (Trimmed(note) + after) == before + Trimmed(note) + after;
    if Trimmed(note) != "" {
      assert rest[0] == Trimmed(note)[0];
    }
  }

  /** A note is empty once trimmed just when it is all space. */
  lemma TrimmedAway(note: string)
    ensures Trimmed(note) == "" <==> Blank(note)
  {
    var before, after := TrimmedExactly(note);
    if Trimmed(note) != "" {
      assert note[|before|] == Trimmed(note)[0];
    }
  }

  /** The bytes of a character: one up to U+007F, two up to U+07FF, three up to U+FFFF, four beyond. */
  lemma Utf8Widths(c: char)
    ensures 1 <= Utf8Size([c]) <= 4
    ensures Utf8Size([c]) <= 1 <==> c as int <= 0x7f
    ensures Utf8Size([c]) <= 2 <==> c as int <= 0x7ff
    ensures Utf8Size([c]) <= 3 <==> c as int <= 0xffff
  {
    assert [c][1..] == "";
  }

  lemma {:induction false} Utf8SizeAdds(a: string, b: string)
    ensures Utf8Size(a + b) == Utf8Size(a) + Utf8Size(b)
  {
    if a == "" {
      assert a + b == b;
    } else {
      assert (a + b)[1..] == a[1..] + b;
      Utf8SizeAdds(a[1..], b);
    }
  }

  function Utf8Size(text: string): nat
  {
    if text == "" then 0 else
      var code := text[0] as int;
      (if code < 0x80 then 1 else if code < 0x800 then 2 else if code < 0x1_0000 then 3 else 4) + Utf8Size(text[1..])
  }
}
