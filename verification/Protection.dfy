/** Permission protection levels: decoding and classification. */
module Protection {
  import opened Common

  // ---------------------------------------------------------------- bits

  function Pow2(k: nat): nat { if k == 0 then 1 else 2 * Pow2(k - 1) }

  /** Bit `k` of `n`. */
  function Bit(n: nat, k: nat): (b: nat)
    ensures b < 2
  {
    if k == 0 then n % 2 else Bit(n / 2, k - 1)
  }

  /** `m` is `n` with bit `k` cleared. */
  ghost predicate Cleared(m: nat, n: nat, k: nat) {
    forall j: nat :: Bit(m, j) == if j == k then 0 else Bit(n, j)
  }

  /** `m` is `n` with the bits below `k` cleared. */
  ghost predicate ClearedBelow(m: nat, n: nat, k: nat) {
    forall j: nat :: Bit(m, j) == if j < k then 0 else Bit(n, j)
  }

  lemma {:induction false} ClearBit(n: nat, k: nat)
    requires Bit(n, k) == 1
    ensures n >= Pow2(k) && Cleared(n - Pow2(k), n, k)
    decreases k
  {
    if k == 0 {
      forall j: nat ensures Bit(n - 1, j) == if j == 0 then 0 else Bit(n, j) {
        if j > 0 {
          assert (n - 1) / 2 == n / 2;
        }
      }
    } else {
      ClearBit(n / 2, k - 1);
      assert (n - Pow2(k)) / 2 == n / 2 - Pow2(k - 1) && (n - Pow2(k)) % 2 == n % 2;
      forall j: nat ensures Bit(n - Pow2(k), j) == if j == k then 0 else Bit(n, j) {
      }
    }
  }

  lemma DoubleShifts(q: nat, j: nat)
    ensures Bit(2 * q, j) == if j == 0 then 0 else Bit(q, j - 1)
  {
    assert 2 * q / 2 == q;
  }

  lemma LowBitsCleared(n: nat)
    ensures ClearedBelow(n - n % 16, n, 4)
  {
    var q := n / 16;
    assert n - n % 16 == 2 * (8 * q) && n / 2 / 2 / 2 / 2 == q;
    forall j: nat ensures Bit(2 * (8 * q), j) == if j < 4 then 0 else Bit(n, j) {
      DoubleShifts(8 * q, j);
      if j > 0 { DoubleShifts(4 * q, j - 1); }
      if j > 1 { DoubleShifts(2 * q, j - 2); }
      if j > 2 { DoubleShifts(q, j - 3); }
      if j > 3 {
        assert Bit(n, j) == Bit(n / 2, j - 1) == Bit(n / 2 / 2, j - 2) == Bit(n / 2 / 2 / 2, j - 3);
      }
    }
  }

  /** Bits 4 to 15 have names; the index of a name is its bit number. */
  const FIRST_FLAG := 4
  const END_FLAG := 16

  datatype Flag = Known(bit: nat) | Unknown(rest: nat) | Token(text: string)

  function ValueOf(f: Flag): nat {
    match f
    case Known(bit) => Pow2(bit)
    case Unknown(rest) => rest
    case Token(_) => 0
  }

  function Sum(flags: seq<Flag>): nat {
    if flags == [] then 0 else Sum(flags[..|flags| - 1]) + ValueOf(flags[|flags| - 1])
  }

  /** The flags found among the bits from 4 to below `k`, with `remaining` still to be looked at. */
  ghost predicate DecodedBelow(numeric: nat, flags: seq<Flag>, remaining: nat, k: nat) {
    && numeric == numeric % 16 + Sum(flags) + remaining
    && ClearedBelow(remaining, numeric, k)
    && (forall f :: f in flags ==> f.Known? && f.bit < k)
    && (forall j: nat :: Known(j) in flags <==> FIRST_FLAG <= j < k && Bit(numeric, j) == 1)
    && NoRepeats(flags)
  }

  lemma NothingDecoded(numeric: nat)
    ensures DecodedBelow(numeric, [], numeric - numeric % 16, FIRST_FLAG)
  {
    LowBitsCleared(numeric);
  }

  lemma SumAppend(flags: seq<Flag>, f: Flag)
    ensures Sum(flags + [f]) == Sum(flags) + ValueOf(f)
  {
    assert (flags + [f])[..|flags|] == flags;
  }

  lemma TakeBit(numeric: nat, flags: seq<Flag>, remaining: nat, k: nat)
    requires DecodedBelow(numeric, flags, remaining, k) && k >= FIRST_FLAG && Bit(remaining, k) == 1
    ensures remaining >= Pow2(k) && DecodedBelow(numeric, flags + [Known(k)], remaining - Pow2(k), k + 1)
  {
    ClearBit(remaining, k);
    SumAppend(flags, Known(k));
    forall j: nat ensures Bit(remaining - Pow2(k), j) == if j < k + 1 then 0 else Bit(numeric, j) {
      assert Bit(remaining, j) == if j < k then 0 else Bit(numeric, j);
    }
    forall j: nat ensures Known(j) in flags + [Known(k)] <==> FIRST_FLAG <= j < k + 1 && Bit(numeric, j) == 1 {
      assert Known(j) in flags <==> FIRST_FLAG <= j < k && Bit(numeric, j) == 1;
      assert Bit(remaining, k) == Bit(numeric, k);
    }
  }

  lemma SkipBit(numeric: nat, flags: seq<Flag>, remaining: nat, k: nat)
    requires DecodedBelow(numeric, flags, remaining, k) && k >= FIRST_FLAG && Bit(remaining, k) != 1
    ensures DecodedBelow(numeric, flags, remaining, k + 1)
  {
    assert Bit(remaining, k) == Bit(numeric, k);
  }

  /** The named bits are exactly the set ones. */
  ghost predicate NamesBits(numeric: nat, flags: seq<Flag>) {
    forall k: nat :: Known(k) in flags <==> FIRST_FLAG <= k < END_FLAG && Bit(numeric, k) == 1
  }

  /** Whatever is not named is the rest above the named bits. */
  ghost predicate RestAbove(numeric: nat, flags: seq<Flag>) {
    forall f :: f in flags ==> !f.Token? && (f.Unknown? ==> f.rest > 0 && ClearedBelow(f.rest, numeric, END_FLAG))
  }

  /** The flags account for every set bit above the base, once each: by name, or as the rest above the named bits. */
  ghost predicate Decoded(numeric: nat, flags: seq<Flag>) {
    && numeric == numeric % 16 + Sum(flags)
    && NamesBits(numeric, flags) && RestAbove(numeric, flags) && NoRepeats(flags)
  }

  lemma RestIsNotNamed(numeric: nat, flags: seq<Flag>, rest: nat)
    requires NamesBits(numeric, flags)
    ensures NamesBits(numeric, flags + [Unknown(rest)])
  {
    forall k: nat ensures Known(k) in flags + [Unknown(rest)] <==> Known(k) in flags {
      InAppend(flags, Unknown(rest), Known(k));
    }
  }

  lemma RestIsAbove(numeric: nat, flags: seq<Flag>, rest: nat)
    requires RestAbove(numeric, flags) && rest > 0 && ClearedBelow(rest, numeric, END_FLAG)
    ensures RestAbove(numeric, flags + [Unknown(rest)])
  {
  }

  lemma RestIsNew(flags: seq<Flag>, rest: nat)
    requires NoRepeats(flags) && forall f :: f in flags ==> f.Known?
    ensures NoRepeats(flags + [Unknown(rest)])
  {
    forall i | 0 <= i < |flags| ensures flags[i] != Unknown(rest) {
      assert flags[i] in flags;
    }
  }

  lemma RestIsUnknown(numeric: nat, flags: seq<Flag>, remaining: nat)
    requires DecodedBelow(numeric, flags, remaining, END_FLAG)
    ensures Decoded(numeric, if remaining > 0 then flags + [Unknown(remaining)] else flags)
  {
    assert NamesBits(numeric, flags) && RestAbove(numeric, flags);
    if remaining > 0 {
      SumAppend(flags, Unknown(remaining));
      RestIsNotNamed(numeric, flags, remaining);
      RestIsAbove(numeric, flags, remaining);
      RestIsNew(flags, remaining);
    }
  }

  lemma InAppend(flags: seq<Flag>, last: Flag, f: Flag)
    ensures f in flags + [last] <==> f in flags || f == last
  {
  }

  /** The flags of a numeric level: every set bit above the base is accounted for once. */
  method DecodeFlags(numeric: nat) returns (flags: seq<Flag>)
    ensures Decoded(numeric, flags)
  {
    flags := [];
    var remaining: nat := numeric - numeric % 16;
    NothingDecoded(numeric);
    for k := FIRST_FLAG to END_FLAG
      invariant DecodedBelow(numeric, flags, remaining, k)
    {
      flags, remaining := DecodeBit(numeric, flags, remaining, k);
    }
    RestIsUnknown(numeric, flags, remaining);
    if remaining > 0 {
      flags := flags + [Unknown(remaining)];
    }
  }

  method DecodeBit(ghost numeric: nat, flags: seq<Flag>, remaining: nat, k: nat)
    returns (flags1: seq<Flag>, remaining1: nat)
    requires k >= FIRST_FLAG && DecodedBelow(numeric, flags, remaining, k)
    ensures DecodedBelow(numeric, flags1, remaining1, k + 1)
  {
    if Bit(remaining, k) == 1 {
      TakeBit(numeric, flags, remaining, k);
      return flags + [Known(k)], remaining - Pow2(k);
    }
    SkipBit(numeric, flags, remaining, k);
    return flags, remaining;
  }

  // ---------------------------------------------------------------- levels

  /** A level text after lexing: an integer, or the tokens between bars. */
  datatype Level = Number(n: int) | Tokens(tokens: seq<string>)

  datatype Base = Normal | Dangerous | Signature | SignatureOrSystem

  datatype Classification = MissingPermission | ExternalUnknown | Weak | SignatureOnly | LegacyRestricted | Malformed

  function BaseOf(level: Level): Option<Base> {
    match level
    case Number(n) =>
      if n < 0 then None
      else if n % 16 == 0 then Some(Normal) else if n % 16 == 1 then Some(Dangerous)
      else if n % 16 == 2 then Some(Signature) else if n % 16 == 3 then Some(SignatureOrSystem) else None
    case Tokens(tokens) =>
      if tokens == [] then None
      else if tokens[0] == "normal" then Some(Normal) else if tokens[0] == "dangerous" then Some(Dangerous)
      else if tokens[0] == "signature" then Some(Signature)
      else if tokens[0] == "signatureorsystem" then Some(SignatureOrSystem) else None
  }

  function Classify(base: Option<Base>): Classification {
    match base
    case None => Malformed
    case Some(Normal) => Weak
    case Some(Dangerous) => Weak
    case Some(Signature) => SignatureOnly
    case Some(SignatureOrSystem) => LegacyRestricted
  }

  predicate SaysSignature(level: Level) {
    match level
    case Number(n) => n >= 0 && n % 16 == 2
    case Tokens(tokens) => tokens != [] && tokens[0] == "signature"
  }

  predicate SaysWeak(level: Level) {
    match level
    case Number(n) => n >= 0 && n % 16 <= 1
    case Tokens(tokens) => tokens != [] && tokens[0] in {"normal", "dangerous"}
  }

  predicate SaysLegacy(level: Level) {
    match level
    case Number(n) => n >= 0 && n % 16 == 3
    case Tokens(tokens) => tokens != [] && tokens[0] == "signatureorsystem"
  }

  /** The class of a level, on its number or its first token. */
  lemma ClassOnLevel(level: Level)
    ensures Classify(BaseOf(level)).SignatureOnly? <==> SaysSignature(level)
    ensures Classify(BaseOf(level)).Weak? <==> SaysWeak(level)
    ensures Classify(BaseOf(level)).LegacyRestricted? <==> SaysLegacy(level)
    ensures Classify(BaseOf(level)).Malformed? <==> !SaysSignature(level) && !SaysWeak(level) && !SaysLegacy(level)
  {
  }

  datatype Details = Details(classification: Classification, base: Option<Base>, flags: seq<Flag>, byApplication: bool,
                             defaulted: bool)

  /** Base, class and flags of a declared level: those of its bits, or its tokens after the first. */
  ghost predicate Describes(d: Details, level: Level) {
    && (d.classification.SignatureOnly? <==> SaysSignature(level))
    && (d.classification.Weak? <==> SaysWeak(level))
    && (d.classification.LegacyRestricted? <==> SaysLegacy(level))
    && d.base == BaseOf(level) && d.classification == Classify(d.base)
    && match level
       case Number(n) => if n >= 0 then Decoded(n, d.flags) else d.flags == []
       case Tokens(tokens) =>
         && (tokens == [] ==> d.flags == [])
         && (tokens != [] ==> |d.flags| == |tokens| - 1)
         && forall i :: 0 <= i < |d.flags| ==> d.flags[i] == Token(tokens[i + 1])
  }

  /** `_protection_details`: permissions the application does not define are unknown, undeclared levels are normal. */
  method ProtectionDetails(permission: Option<string>, custom: map<string, Option<string>>, lex: string -> Level)
    returns (d: Details)
    ensures d.classification == ClassOf(permission, custom, lex)
    ensures d.byApplication <==> permission.Some? && permission.value != "" && permission.value in custom
    ensures d.defaulted <==> d.byApplication && custom[permission.value] == None
    ensures !d.byApplication ==> d.base == None && d.flags == []
    ensures d.defaulted ==> d.classification.Weak? && d.base == Some(Normal) && d.flags == []
    ensures d.byApplication && !d.defaulted ==> Describes(d, lex(custom[permission.value].value))
    ensures d.classification.SignatureOnly? ==>
              d.byApplication && !d.defaulted && SaysSignature(lex(custom[permission.value].value))
  {
    if permission == None || permission == Some("") {
      return Details(MissingPermission, None, [], false, false);
    }
    if permission.value !in custom {
      return Details(ExternalUnknown, None, [], false, false);
    }
    var text := custom[permission.value];
    if text == None {
      return Details(Weak, Some(Normal), [], true, true);
    }
    var level := lex(text.value);
    var base := BaseOf(level);
    var flags: seq<Flag> := [];
    if level.Number? && level.n >= 0 {
      flags := DecodeFlags(level.n);
    } else if level.Tokens? && level.tokens != [] {
      flags := seq(|level.tokens| - 1, i requires 0 <= i < |level.tokens| - 1 => Token(level.tokens[i + 1]));
    }
    d := Details(Classify(base), base, flags, true, false);
  }

  function ClassOf(permission: Option<string>, custom: map<string, Option<string>>,
                   lex: string -> Level): Classification {
    if permission == None || permission == Some("") then MissingPermission
    else if permission.value !in custom then ExternalUnknown
    else if custom[permission.value] == None then Weak
    else Classify(BaseOf(lex(custom[permission.value].value)))
  }

  // ---------------------------------------------------------------- definitions

  datatype Definition = Definition(name: string, level: Option<string>)

  const CONFLICT := "__conflicting_definition__"

  /** The levels of one name among the first `n` definitions. */
  ghost predicate AllSay(defs: seq<Definition>, n: nat, name: string, level: Option<string>)
    requires n <= |defs|
  {
    forall i :: 0 <= i < n && defs[i].name == name ==> defs[i].level == level
  }

  ghost predicate Disagree(defs: seq<Definition>, n: nat, name: string)
    requires n <= |defs|
  {
    exists i, j :: 0 <= i < j < n && defs[i].name == name && defs[j].name == name && defs[i].level != defs[j].level
  }

  ghost predicate Defined(defs: seq<Definition>, n: nat, name: string)
    requires n <= |defs|
  {
    exists i :: 0 <= i < n && defs[i].name == name
  }

  /** One level for each defined name: the agreed one, or the conflict marker. */
  method MergeDefinitions(defs: seq<Definition>) returns (custom: map<string, Option<string>>)
    ensures forall name :: name in custom <==> name != "" && Defined(defs, |defs|, name)
    ensures forall name :: name in custom ==>
              AllSay(defs, |defs|, name, custom[name]) ||
                  (custom[name] == Some(CONFLICT) && Disagree(defs, |defs|, name))
  {
    custom := map[];
    for n := 0 to |defs|
      invariant forall name :: name in custom <==> name != "" && Defined(defs, n, name)
      invariant forall name :: name in custom ==>
                  AllSay(defs, n, name, custom[name]) || (custom[name] == Some(CONFLICT) && Disagree(defs, n, name))
    {
      var d := defs[n];
      ghost var before := custom;
      if d.name != "" {
        if d.name in custom && custom[d.name] != d.level {
          custom := custom[d.name := Some(CONFLICT)];
        } else if d.name !in custom {
          custom := custom[d.name := d.level];
        }
      }
      forall name | name in custom
        ensures AllSay(defs, n + 1, name, custom[name]) ||
                (custom[name] == Some(CONFLICT) && Disagree(defs, n + 1, name))
      {
        if name == d.name && name in before && before[name] != d.level && AllSay(defs, n, name, before[name]) {
          var i :| 0 <= i < n && defs[i].name == name;
          assert defs[i].level != defs[n].level;
        }
      }
    }
  }
}
