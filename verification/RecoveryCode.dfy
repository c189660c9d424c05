/** How a recovery code is shown to its owner and read back (recovery.go). */
module RecoveryCode {
  import opened Bytes

  predicate HexChar(c: char) {
    '0' <= c <= '9' || 'a' <= c <= 'f'
  }

  /** The hex form of random bytes. */
  predicate HexCode(code: string) {
    forall i :: 0 <= i < |code| ==> HexChar(code[i])
  }

  /** Groups of four, the last one possibly shorter. */
  function Groups(hex: string): (parts: seq<string>)
    decreases |hex|
  {
    if hex == [] then [] else if |hex| <= 4 then [hex] else [hex[..4]] + Groups(hex[4..])
  }

  function Join(parts: seq<string>, first: bool): string
    decreases |parts|
  {
    if parts == [] then [] else (if first then "" else "-") + parts[0] + Join(parts[1..], false)
  }

  function Format(hex: string): string {
    Join(Groups(hex), true)
  }

  /** Dashes and spaces go; of every other character only the low byte is kept. */
  function Normalize(code: string): string
    decreases |code|
  {
    if code == [] then []
    else (if code[0] == '-' || code[0] == ' ' then [] else [(code[0] as int % 256) as char]) + Normalize(code[1..])
  }

  function Behind(hex: string, i: nat): string {
    if i <= |hex| then hex[i..] else []
  }

  lemma NextGroup(hex: string, i: nat)
    requires i < |hex|
    ensures Groups(hex[i..]) == [hex[i..if i + 4 > |hex| then |hex| else i + 4]] + Groups(Behind(hex, i + 4))
  {
    var rest := hex[i..];
    if |rest| > 4 {
      assert rest[4..] == hex[i + 4..] && rest[..4] == hex[i..i + 4];
    } else {
      assert rest == hex[i..|hex|] && Behind(hex, i + 4) == [];
    }
  }

  lemma NextPart(parts: seq<string>, i: nat)
    requires i < |parts|
    ensures Join(parts[i..], i == 0) == (if i == 0 then "" else "-") + parts[i] + Join(parts[i + 1..], false)
  {
    assert parts[i..][1..] == parts[i + 1..];
  }

  method FormatRecoveryCode(hex: string) returns (result: string)
    ensures result == Format(hex)
  {
    var parts: seq<string> := [];
    var i := 0;
    while i < |hex|
      invariant 0 <= i && parts + Groups(Behind(hex, i)) == Groups(hex)
      decreases |hex| - i
    {
      var end := i + 4;
      if end > |hex| {
        end := |hex|;
      }
      NextGroup(hex, i);
      AppendAssociates(parts, [hex[i..end]], Groups(Behind(hex, i + 4)));
      parts := parts + [hex[i..end]];
      i := i + 4;
    }
    assert parts == Groups(hex);
    result := "";
    i := 0;
    while i < |parts|
      invariant 0 <= i <= |parts| && result + Join(parts[i..], i == 0) == Join(parts, true)
    {
      NextPart(parts, i);
      ghost var lead := if i == 0 then "" else "-";
      AppendAssociates(result, lead + parts[i], Join(parts[i + 1..], false));
      AppendAssociates(result, lead, parts[i]);
      if i > 0 {
        result := result + "-";
      }
      result := result + parts[i];
      i := i + 1;
    }
  }

  method NormalizeCode(code: string) returns (out: string)
    ensures out == Normalize(code)
  {
    out := [];
    var i := 0;
    while i < |code|
      invariant i <= |code| && out + Normalize(code[i..]) == Normalize(code)
    {
      assert code[i..][1..] == code[i + 1..];
      if code[i] != '-' && code[i] != ' ' {
        var c := (code[i] as int % 256) as char;
        AppendAssociates(out, [c], Normalize(code[i + 1..]));
        out := out + [c];
      }
      i := i + 1;
    }
  }

  lemma {:induction false} NormalizeAppends(a: string, b: string)
    ensures Normalize(a + b) == Normalize(a) + Normalize(b)
    decreases |a|
  {
    if a == [] {
      assert a + b == b;
    } else {
      assert (a + b)[1..] == a[1..] + b;
      NormalizeAppends(a[1..], b);
    }
  }

  lemma {:induction false} HexIsNormal(hex: string)
    requires HexCode(hex)
    ensures Normalize(hex) == hex
    decreases |hex|
  {
    if hex != [] {
      HexIsNormal(hex[1..]);
      assert hex == [hex[0]] + hex[1..];
    }
  }

  lemma LeadIsDropped(lead: string, part: string, rest: string)
    requires lead == "" || lead == "-"
    ensures Normalize(lead + part + rest) == Normalize(part) + Normalize(rest)
  {
    NormalizeAppends(lead + part, rest);
    NormalizeAppends(lead, part);
    assert Normalize("-") == [] + Normalize("-"[1..]);
  }

  lemma {:induction false} JoinedIsNormal(hex: string, first: bool)
    requires HexCode(hex)
    ensures Normalize(Join(Groups(hex), first)) == hex
    decreases |hex|
  {
    if hex != [] {
      var parts := Groups(hex);
      var lead := if first then "" else "-";
      var rest := if |hex| <= 4 then [] else hex[4..];
      assert parts[1..] == Groups(rest) && hex == parts[0] + rest;
      JoinedIsNormal(rest, false);
      HexIsNormal(parts[0]);
      LeadIsDropped(lead, parts[0], Join(parts[1..], false));
    }
  }

  /** What the owner copies from the screen is the code that was generated. */
  lemma ReadsBack(hex: string)
    requires HexCode(hex)
    ensures Normalize(Format(hex)) == hex
  {
    JoinedIsNormal(hex, true);
  }

  /** The code may be typed with or without its dashes, and with spaces anywhere. */
  lemma SpacingDoesNotMatter(a: string, b: string, c: char)
    requires c == '-' || c == ' '
    ensures Normalize(a + [c] + b) == Normalize(a + b)
  {
    NormalizeAppends(a + [c], b);
    NormalizeAppends(a, [c]);
    NormalizeAppends(a, b);
    assert Normalize([c]) == [] + Normalize([c][1..]);
  }
}
