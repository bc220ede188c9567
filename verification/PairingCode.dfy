/** The printed form of a pairing code: eight characters drawn from random bytes, and the
    normalisation that undoes whatever a person does to their case and spacing. */
module PairingCode {
  import opened CommandPolicy

  const ALPHABET := "ABCDEFGH" + "JKLMN" + "PQRSTUVWXYZ" + "23456789"

  type Byte = b: int | 0 <= b < 256

  // ---------------------------------------------------------------- the alphabet

  /** The characters the normalisation's pattern admits. */
  predicate Unambiguous(c: char) {
    'A' <= c <= 'H' || 'J' <= c <= 'N' || 'P' <= c <= 'Z' || '2' <= c <= '9'
  }

  /** The k-th of those characters, counted in the order the alphabet lists them. */
  function Symbol(k: nat): char
    requires k < 32
  {
    if k < 8 then 'A' + k as char
    else if k < 13 then 'J' + (k - 8) as char
    else if k < 24 then 'P' + (k - 13) as char
    else '2' + (k - 24) as char
  }

  lemma Chunks(k: nat)
    requires k < 11
    ensures k < 8 ==> "ABCDEFGH"[k] == 'A' + k as char
    ensures k < 8 ==> "23456789"[k] == '2' + k as char
    ensures k < 5 ==> "JKLMN"[k] == 'J' + k as char
    ensures "PQRSTUVWXYZ"[k] == 'P' + k as char
  {
  }

  lemma AlphabetAt(k: nat)
    requires k < 32
    ensures |ALPHABET| == 32 && ALPHABET[k] == Symbol(k)
  {
    Chunks(if k < 8 then k else if k < 13 then k - 8 else if k < 24 then k - 13 else k - 24);
  }

  /** The alphabet that codes are drawn from and the pattern that checks them are the same set. */
  lemma AlphabetIsPattern(c: char)
    ensures c in ALPHABET <==> Unambiguous(c)
  {
    AlphabetAt(0);
    if c in ALPHABET {
      var k: nat :| k < |ALPHABET| && ALPHABET[k] == c;
      AlphabetAt(k);
    }
    if Unambiguous(c) {
      AlphabetAt(Rank(c));
    }
  }

  function Rank(c: char): (k: nat)
    requires Unambiguous(c)
    ensures k < 32 && Symbol(k) == c
    ensures forall j: nat :: j < 32 && Symbol(j) == c ==> j == k
  {
    if c <= '9' then 24 + (c - '2') as int
    else if c <= 'H' then (c - 'A') as int
    else if c <= 'N' then 8 + (c - 'J') as int
    else 13 + (c - 'P') as int
  }

  /** The alphabet character a random byte selects. */
  function Letter(b: Byte): (c: char)
    ensures c == Symbol(b % 32) && Unambiguous(c)
  {
    AlphabetAt(b % 32);
    ALPHABET[b % 32]
  }

  /** The characters of a code, before the hyphen is put in. */
  function Characters(bytes: seq<Byte>): string {
    if bytes == [] then "" else [Letter(bytes[0])] + Characters(bytes[1..])
  }

  lemma {:induction false} CharactersLength(bytes: seq<Byte>)
    ensures |Characters(bytes)| == |bytes|
    ensures forall i :: 0 <= i < |bytes| ==> Unambiguous(Characters(bytes)[i])
  {
    if bytes != [] {
      CharactersLength(bytes[1..]);
    }
  }

  function CreatePairingCode(bytes: seq<Byte>): string
    requires |bytes| == 8
  {
    CharactersLength(bytes);
    Characters(bytes)[..4] + "-" + Characters(bytes)[4..]
  }

  // ---------------------------------------------------------------- uniformity

  function BytesFor(c: char): set<Byte> {
    set b: Byte | 0 <= b < 256 && Letter(b) == c
  }

  /** The first n bytes with residue k. */
  function Residues(k: nat, n: nat): set<Byte>
    requires k < 32 && n <= 8
  {
    if n == 0 then {} else Residues(k, n - 1) + {32 * (n - 1) + k}
  }

  lemma {:induction false} ResiduesCount(k: nat, n: nat)
    requires k < 32 && n <= 8
    ensures |Residues(k, n)| == n
    ensures forall b: Byte :: b in Residues(k, n) <==> b % 32 == k && b / 32 < n
  {
    if n > 0 {
      ResiduesCount(k, n - 1);
    }
  }

  /** The characters of the alphabet are all different, so each stands for eight bytes. */
  lemma EightBytes(c: char)
    requires Unambiguous(c)
    ensures |BytesFor(c)| == 8
  {
    ResiduesCount(Rank(c), 8);
    assert BytesFor(c) == Residues(Rank(c), 8);
  }

  /** All byte strings that give these characters. */
  function Preimages(code: string): set<seq<Byte>> {
    if code == "" then {[]} else set b, rest | b in BytesFor(code[0]) && rest in Preimages(code[1..]) :: [b] + rest
  }

  lemma {:induction false} PreimagesExact(code: string, bytes: seq<Byte>)
    ensures bytes in Preimages(code) <==> Characters(bytes) == code
  {
    CharactersLength(bytes);
    if code != "" && bytes != [] {
      PreimagesExact(code[1..], bytes[1..]);
      assert bytes == [bytes[0]] + bytes[1..];
      assert code == [code[0]] + code[1..];
      if bytes in Preimages(code) {
        var b, rest :| b in BytesFor(code[0]) && rest in Preimages(code[1..]) && bytes == [b] + rest;
        assert rest == bytes[1..];
      }
    }
  }

  function Extend(heads: set<Byte>, tails: set<seq<Byte>>): set<seq<Byte>> {
    set b, rest | b in heads && rest in tails :: [b] + rest
  }

  lemma {:induction false} ConsCount(b: Byte, tails: set<seq<Byte>>)
    ensures |set rest | rest in tails :: [b] + rest| == |tails|
  {
    var s := set rest | rest in tails :: [b] + rest;
    if tails != {} {
      var t :| t in tails;
      var fewer := tails - {t};
      var s' := set rest | rest in fewer :: [b] + rest;
      ConsCount(b, fewer);
      assert s == s' + {[b] + t};
      forall u | u in fewer
        ensures [b] + t != [b] + u
      {
        assert ([b] + t)[1..] == t && ([b] + u)[1..] == u;
      }
    } else {
      assert s == {};
    }
  }

  lemma ExtendSplits(heads: set<Byte>, b: Byte, tails: set<seq<Byte>>)
    requires b in heads
    ensures Extend(heads, tails) == (set rest | rest in tails :: [b] + rest) + Extend(heads - {b}, tails)
    ensures (set rest | rest in tails :: [b] + rest) !! Extend(heads - {b}, tails)
  {
    forall x | x in Extend(heads - {b}, tails)
      ensures x[0] != b
    {
    }
  }

  lemma OneMore(m: nat, n: nat)
    ensures (m + 1) * n == m * n + n
  {
  }

  lemma {:induction false} ExtendCount(heads: set<Byte>, tails: set<seq<Byte>>)
    ensures |Extend(heads, tails)| == |heads| * |tails|
  {
    if heads == {} {
      assert Extend(heads, tails) == {};
    } else {
      var b :| b in heads;
      ConsCount(b, tails);
      ExtendSplits(heads, b, tails);
      ExtendCount(heads - {b}, tails);
      assert |heads| == |heads - {b}| + 1;
      OneMore(|heads - {b}|, |tails|);
    }
  }

  function Power8(n: nat): nat {
    if n == 0 then 1 else 8 * Power8(n - 1)
  }

  /** Every code of n alphabet characters comes from exactly 8^n byte strings, so no code is likelier
      than another. */
  lemma {:induction false} CodesAreUniform(code: string)
    requires forall i :: 0 <= i < |code| ==> Unambiguous(code[i])
    ensures |Preimages(code)| == Power8(|code|)
    ensures forall bytes :: bytes in Preimages(code) <==> Characters(bytes) == code
  {
    if code != "" {
      CodesAreUniform(code[1..]);
      EightBytes(code[0]);
      assert Preimages(code) == Extend(BytesFor(code[0]), Preimages(code[1..]));
      ExtendCount(BytesFor(code[0]), Preimages(code[1..]));
    }
    forall bytes
      ensures bytes in Preimages(code) <==> Characters(bytes) == code
    {
      PreimagesExact(code, bytes);
    }
  }

  // ---------------------------------------------------------------- normalisation

  /** White space as JavaScript's `\s` and `trim` take it. */
  predicate Blank(c: char) {
    var n := c as int;
    || 9 <= n <= 13 || n == 0x20 || n == 0xA0 || n == 0x1680 || 0x2000 <= n <= 0x200A
    || n == 0x2028 || n == 0x2029 || n == 0x202F || n == 0x205F || n == 0x3000 || n == 0xFEFF
  }

  const BLANKS := {
    0x09, 0x0A, 0x0B, 0x0C, 0x0D, 0x20, 0xA0, 0x1680, 0x2000, 0x2001, 0x2002, 0x2003, 0x2004, 0x2005, 0x2006, 0x2007,
    0x2008, 0x2009, 0x200A, 0x2028, 0x2029, 0x202F, 0x205F, 0x3000, 0xFEFF}

  /** That is tab to carriage return, the space separators of Unicode, the two line separators and the
      byte order mark. */
  lemma BlankIff(c: char)
    ensures Blank(c) <==> c as int in BLANKS
  {
  }

  predicate Separator(c: char) {
    Blank(c) || c == '-'
  }

  function Upper(c: char): char {
    if 'a' <= c <= 'z' then (c as int - 32) as char else c
  }

  function TrimStart(s: string): string {
    if s != "" && Blank(s[0]) then TrimStart(s[1..]) else s
  }

  function TrimEnd(s: string): string {
    if s != "" && Blank(s[|s| - 1]) then TrimEnd(s[..|s| - 1]) else s
  }

  function ToUpper(s: string): string {
    if s == "" then "" else [Upper(s[0])] + ToUpper(s[1..])
  }

  function DropSeparators(s: string): string {
    if s == "" then "" else (if Separator(s[0]) then "" else [s[0]]) + DropSeparators(s[1..])
  }

  predicate WellFormedCode(s: string) {
    |s| == 8 && forall i :: 0 <= i < |s| ==> Unambiguous(s[i])
  }

  /** Trim, upper-case, drop spaces and hyphens, then check the alphabet; nothing stands for the error. */
  function NormalizePairingCode(value: string): Option<string> {
    var normalized := DropSeparators(ToUpper(TrimEnd(TrimStart(value))));
    if WellFormedCode(normalized) then Some(normalized) else None
  }

  /** The character, or its lower-case letter. */
  predicate CaseOf(c: char, upper: char) {
    (c == upper && !('a' <= c <= 'z')) || ('A' <= upper <= 'Z' && c as int == upper as int + 32)
  }

  /** `typed` spells `code` with letters in either case and separators anywhere. */
  predicate Spells(typed: string, code: string)
    decreases |typed|
  {
    if typed == "" then code == ""
    else || (Separator(typed[0]) && Spells(typed[1..], code))
         || (!Separator(typed[0]) && code != "" && CaseOf(typed[0], code[0]) && Spells(typed[1..], code[1..]))
  }

  lemma {:induction false} SpellsDrops(typed: string, code: string)
    requires Spells(typed, code)
    ensures DropSeparators(ToUpper(typed)) == code
  {
    if typed != "" {
      assert ToUpper(typed)[1..] == ToUpper(typed[1..]);
      if Separator(typed[0]) {
        SpellsDrops(typed[1..], code);
      } else {
        SpellsDrops(typed[1..], code[1..]);
        assert code == [code[0]] + code[1..];
      }
    }
  }

  lemma {:induction false} TrimStartSpells(typed: string, code: string)
    requires Spells(typed, code)
    ensures Spells(TrimStart(typed), code)
  {
    if typed != "" && Blank(typed[0]) {
      TrimStartSpells(typed[1..], code);
    }
  }

  lemma {:induction false} DropLast(typed: string, code: string)
    requires Spells(typed, code) && typed != "" && Separator(typed[|typed| - 1])
    ensures Spells(typed[..|typed| - 1], code)
  {
    if |typed| > 1 {
      var front := typed[..|typed| - 1];
      assert front[1..] == typed[1..][..|typed| - 2];
      DropLast(typed[1..], if Separator(typed[0]) then code else code[1..]);
    }
  }

  lemma {:induction false} TrimEndSpells(typed: string, code: string)
    requires Spells(typed, code)
    ensures Spells(TrimEnd(typed), code)
    decreases |typed|
  {
    if typed != "" && Blank(typed[|typed| - 1]) {
      DropLast(typed, code);
      TrimEndSpells(typed[..|typed| - 1], code);
    }
  }

  lemma UpperIsCase(c: char)
    ensures CaseOf(c, Upper(c)) && (Separator(Upper(c)) <==> Separator(c))
  {
  }

  lemma {:induction false} DropsSpell(typed: string)
    ensures Spells(typed, DropSeparators(ToUpper(typed)))
  {
    if typed != "" {
      DropsSpell(typed[1..]);
      var code, rest := DropSeparators(ToUpper(typed)), DropSeparators(ToUpper(typed[1..]));
      assert ToUpper(typed)[0] == Upper(typed[0]) && ToUpper(typed)[1..] == ToUpper(typed[1..]);
      UpperIsCase(typed[0]);
      if Separator(typed[0]) {
        assert code == rest;
      } else {
        assert code == [Upper(typed[0])] + rest && code[1..] == rest;
      }
    }
  }

  lemma {:induction false} StartTrimmed(typed: string, code: string)
    requires Spells(TrimStart(typed), code)
    ensures Spells(typed, code)
  {
    if typed != "" && Blank(typed[0]) {
      StartTrimmed(typed[1..], code);
    }
  }

  lemma {:induction false} AddLast(typed: string, code: string)
    requires typed != "" && Separator(typed[|typed| - 1]) && Spells(typed[..|typed| - 1], code)
    ensures Spells(typed, code)
  {
    if |typed| > 1 {
      var front := typed[..|typed| - 1];
      assert front[1..] == typed[1..][..|typed| - 2];
      AddLast(typed[1..], if Separator(typed[0]) then code else code[1..]);
    }
  }

  lemma {:induction false} EndTrimmed(typed: string, code: string)
    requires Spells(TrimEnd(typed), code)
    ensures Spells(typed, code)
    decreases |typed|
  {
    if typed != "" && Blank(typed[|typed| - 1]) {
      EndTrimmed(typed[..|typed| - 1], code);
      AddLast(typed, code);
    }
  }

  /** Exactly when a text is accepted, and as what: when it spells eight characters of the alphabet, in
      either case and with separators anywhere. Any other text is refused. */
  lemma NormalizeIff(typed: string, code: string)
    ensures NormalizePairingCode(typed) == Some(code) <==>
      |code| == 8 && (forall i :: 0 <= i < |code| ==> code[i] in ALPHABET) && Spells(typed, code)
    ensures NormalizePairingCode(typed) == None <==>
      !exists c :: |c| == 8 && (forall i :: 0 <= i < |c| ==> c[i] in ALPHABET) && Spells(typed, c)
  {
    var trimmed := TrimEnd(TrimStart(typed));
    var found := DropSeparators(ToUpper(trimmed));
    DropsSpell(trimmed);
    EndTrimmed(TrimStart(typed), found);
    StartTrimmed(typed, found);
    forall c | Spells(typed, c)
      ensures c == found
    {
      TrimStartSpells(typed, c);
      TrimEndSpells(TrimStart(typed), c);
      SpellsDrops(trimmed, c);
    }
    forall c: char
      ensures c in ALPHABET <==> Unambiguous(c)
    {
      AlphabetIsPattern(c);
    }
  }

  /** However a generated code is spelled, normalising gives back its eight characters. */
  lemma NormalizeRecovers(bytes: seq<Byte>, typed: string)
    requires |bytes| == 8 && Spells(typed, Characters(bytes))
    ensures NormalizePairingCode(typed) == Some(Characters(bytes))
  {
    CharactersLength(bytes);
    TrimStartSpells(typed, Characters(bytes));
    TrimEndSpells(TrimStart(typed), Characters(bytes));
    SpellsDrops(TrimEnd(TrimStart(typed)), Characters(bytes));
  }

  lemma PlainCharacter(c: char)
    requires Unambiguous(c)
    ensures !Separator(c) && Upper(c) == c
  {
  }

  lemma {:induction false} PlainSpells(code: string)
    requires forall i :: 0 <= i < |code| ==> Unambiguous(code[i])
    ensures Spells(code, code)
  {
    if code != "" {
      PlainCharacter(code[0]);
      PlainSpells(code[1..]);
    }
  }

  lemma {:induction false} HyphenSpells(front: string, back: string, code: string)
    requires Spells(front + back, code)
    ensures Spells(front + "-" + back, code)
  {
    if front == "" {
      assert front + "-" + back == "-" + back && front + back == back;
    } else {
      assert (front + "-" + back)[1..] == front[1..] + "-" + back && (front + back)[1..] == front[1..] + back;
      HyphenSpells(front[1..], back, if Separator(front[0]) then code else code[1..]);
    }
  }

  /** The printed code itself, with its hyphen, is one such spelling. */
  lemma CreatedCodeNormalizes(bytes: seq<Byte>)
    requires |bytes| == 8
    ensures NormalizePairingCode(CreatePairingCode(bytes)) == Some(Characters(bytes))
  {
    var code := Characters(bytes);
    CharactersLength(bytes);
    PlainSpells(code);
    assert code[..4] + code[4..] == code;
    HyphenSpells(code[..4], code[4..], code);
    NormalizeRecovers(bytes, CreatePairingCode(bytes));
  }
}
