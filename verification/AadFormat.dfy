/** The printed form of the associated data, and why no two contexts share one. */
module AadFormat {
  import opened Types

  // ----- decimal numbers, as %d prints them -----

  function Digit(d: nat): char
    requires d < 10
  {
    ('0' as int + d) as char
  }

  function Digits(n: nat): (s: string)
    ensures s != []
  {
    if n < 10 then [Digit(n)] else Digits(n / 10) + [Digit(n % 10)]
  }

  function Decimal(n: int): string {
    if n < 0 then "-" + Digits(-n) else Digits(n)
  }

  /** Only digits. */
  predicate Numeral(s: string) {
    forall i :: 0 <= i < |s| ==> '0' <= s[i] <= '9'
  }

  function Value(s: string): nat
    requires Numeral(s)
  {
    if s == [] then 0 else 10 * Value(s[..|s| - 1]) + (s[|s| - 1] as int - '0' as int)
  }

  lemma {:induction false} DigitsValue(n: nat)
    ensures Numeral(Digits(n)) && Value(Digits(n)) == n
  {
    if n >= 10 {
      DigitsValue(n / 10);
      assert Digits(n)[..|Digits(n)| - 1] == Digits(n / 10);
    } else {
      assert Digits(n)[..0] == [];
    }
  }

  lemma DecimalInjective(m: int, n: int)
    requires Decimal(m) == Decimal(n)
    ensures m == n
  {
    DigitsValue(if m < 0 then -m else m);
    DigitsValue(if n < 0 then -n else n);
    assert m < 0 ==> Decimal(m)[0] == '-' && Decimal(m)[1..] == Digits(-m);
    assert n < 0 ==> Decimal(n)[0] == '-' && Decimal(n)[1..] == Digits(-n);
  }

  // ----- the associated data -----

  /** An identifier that cannot be taken for a separator, one byte a character; identifiers are UUIDs. */
  predicate PlainId(s: string) {
    forall i :: 0 <= i < |s| ==> s[i] != '|' && s[i] as int < 256
  }

  const BLOB_LABEL := "blob"

  function Label(tier: Tier): string {
    match tier
    case RowTier => "row"
    case IndexTier => "index"
    case PayloadTier => "payload"
  }

  const HEAD := "gophkeeper:secret:v1|vault="
  const BEFORE_SECRET := "|secret="
  const BEFORE_VERSION := "|ver="
  const BEFORE_TIER := "|tier="

  function SecretAad(vault: VaultId, secret: SecretId, version: int, slot: string): string {
    HEAD + (vault + (BEFORE_SECRET + (secret + (BEFORE_VERSION + (Decimal(version) + (BEFORE_TIER + slot))))))
  }

  function Printed(aad: Aad): string {
    SecretAad(aad.vault, aad.secret, aad.version, Label(aad.tier))
  }

  /** A field without bars ends at the first bar. */
  lemma FieldEnds(a: string, b: string, x: string, y: string)
    requires PlainId(a) && PlainId(b) && x != [] && y != [] && x[0] == '|' && y[0] == '|'
    requires a + x == b + y
    ensures a == b && x == y
  {
    var whole := a + x;
    assert whole[|a|] == '|' && whole[|b|] == '|';
    assert forall i :: 0 <= i < |a| ==> whole[i] == a[i];
    assert forall i :: 0 <= i < |b| ==> whole[i] == b[i];
    assert a == whole[..|a|] && b == whole[..|b|];
    assert x == whole[|a|..] && y == whole[|b|..];
  }

  lemma LabelGoes(slot: string, x: string, y: string)
    requires slot + x == slot + y
    ensures x == y
  {
    assert x == (slot + x)[|slot|..];
    assert y == (slot + y)[|slot|..];
  }

  lemma DecimalIsPlain(n: int)
    ensures PlainId(Decimal(n))
  {
    DigitsValue(if n < 0 then -n else n);
  }

  function VersionPart(version: int, rest: string): string {
    BEFORE_VERSION + (Decimal(version) + (BEFORE_TIER + rest))
  }

  lemma VersionParses(m: int, n: int, x: string, y: string)
    requires VersionPart(m, x) == VersionPart(n, y)
    ensures m == n && x == y
  {
    LabelGoes(BEFORE_VERSION, Decimal(m) + (BEFORE_TIER + x), Decimal(n) + (BEFORE_TIER + y));
    DecimalIsPlain(m);
    DecimalIsPlain(n);
    FieldEnds(Decimal(m), Decimal(n), BEFORE_TIER + x, BEFORE_TIER + y);
    LabelGoes(BEFORE_TIER, x, y);
    DecimalInjective(m, n);
  }

  /** Whatever follows the version, the identifiers and the version can be read back. */
  lemma Parses(v: VaultId, s: SecretId, m: int, x: string, v': VaultId, s': SecretId, n: int, y: string)
    requires PlainId(v) && PlainId(s) && PlainId(v') && PlainId(s')
    requires SecretAad(v, s, m, x) == SecretAad(v', s', n, y)
    ensures v == v' && s == s' && m == n && x == y
  {
    var p, q := VersionPart(m, x), VersionPart(n, y);
    LabelGoes(HEAD, v + (BEFORE_SECRET + (s + p)), v' + (BEFORE_SECRET + (s' + q)));
    FieldEnds(v, v', BEFORE_SECRET + (s + p), BEFORE_SECRET + (s' + q));
    LabelGoes(BEFORE_SECRET, s + p, s' + q);
    FieldEnds(s, s', p, q);
    VersionParses(m, n, x, y);
  }

  lemma LabelsDiffer(t: Tier, u: Tier)
    ensures Label(t) == Label(u) ==> t == u
    ensures Label(t)[0] != BLOB_LABEL[0]
  {
    assert |Label(RowTier)| == 3 && |Label(IndexTier)| == 5 && |Label(PayloadTier)| == 7;
  }

  /** Two tiers share their associated data exactly when they are the same tier of the same version of one secret. */
  lemma PrintedIsInjective(a: Aad, b: Aad)
    requires PlainId(a.vault) && PlainId(a.secret) && PlainId(b.vault) && PlainId(b.secret)
    ensures Printed(a) == Printed(b) <==> a == b
  {
    if Printed(a) == Printed(b) {
      Parses(a.vault, a.secret, a.version, Label(a.tier), b.vault, b.secret, b.version, Label(b.tier));
      LabelsDiffer(a.tier, b.tier);
    }
  }
}
