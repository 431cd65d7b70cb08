/** `ColorCache`: derived colours memoised under string keys. AWT's
    `darker()` and `brighter()` are floating-point arithmetic and enter the
    model as the two functions the cache is given. */
module ColorCaching {
  import opened Wrappers
  import opened JavaLang
  import opened Awt

  function DarkerKey(c: Color): string {
    "darker_" + DecimalText(GetRGB(c))
  }

  function BrighterKey(c: Color): string {
    "brighter_" + DecimalText(GetRGB(c))
  }

  function TranslucentKey(c: Color, alpha: Int32): string {
    "translucent_" + DecimalText(GetRGB(c)) + "_" + DecimalText(alpha)
  }

  /** `new Color(red, green, blue, alpha)`: the colour with its alpha
      replaced, or `None` for the `IllegalArgumentException` an alpha outside
      0..255 raises. */
  function Translucent(c: Color, alpha: Int32): (r: Option<Color>)
    ensures r.Some? <==> 0 <= alpha <= 255
    ensures r.Some? ==> r.value.red == c.red && r.value.green == c.green && r.value.blue == c.blue
    ensures r.Some? ==> r.value.alpha == alpha
  {
    if 0 <= alpha <= 255 then Some(Color(c.red, c.green, c.blue, alpha)) else None
  }

  /** The three key families never share a key. */
  lemma KeyFamiliesDisjoint(c1: Color, c2: Color, c3: Color, alpha: Int32)
    ensures DarkerKey(c1) != BrighterKey(c2)
    ensures DarkerKey(c1) != TranslucentKey(c3, alpha)
    ensures BrighterKey(c2) != TranslucentKey(c3, alpha)
  {
    assert DarkerKey(c1)[0] == 'd';
    assert BrighterKey(c2)[0] == 'b';
    assert TranslucentKey(c3, alpha)[0] == 't';
  }

  lemma StripPrefix(p: string, a: string, b: string)
    requires p + a == p + b
    ensures a == b
  {
    assert a == (p + a)[|p|..];
    assert b == (p + b)[|p|..];
  }

  lemma DarkerKeyInjective(c1: Color, c2: Color)
    ensures DarkerKey(c1) == DarkerKey(c2) ==> c1 == c2
  {
    if DarkerKey(c1) == DarkerKey(c2) {
      StripPrefix("darker_", DecimalText(GetRGB(c1)), DecimalText(GetRGB(c2)));
      DecimalTextInjective(GetRGB(c1), GetRGB(c2));
      GetRGBInjective(c1, c2);
    }
  }

  lemma BrighterKeyInjective(c1: Color, c2: Color)
    ensures BrighterKey(c1) == BrighterKey(c2) ==> c1 == c2
  {
    if BrighterKey(c1) == BrighterKey(c2) {
      StripPrefix("brighter_", DecimalText(GetRGB(c1)), DecimalText(GetRGB(c2)));
      DecimalTextInjective(GetRGB(c1), GetRGB(c2));
      GetRGBInjective(c1, c2);
    }
  }

  /** Where the first `_` of a text stands (its length if it has none). */
  function SeparatorIndex(s: string): (i: nat)
    ensures i <= |s|
  {
    if s == [] || s[0] == '_' then 0 else 1 + SeparatorIndex(s[1..])
  }

  lemma {:induction false} SeparatorAfter(a: string, b: string)
    requires '_' !in a
    ensures SeparatorIndex(a + "_" + b) == |a|
    decreases |a|
  {
    if a != [] {
      assert (a + "_" + b)[0] == a[0];
      assert (a + "_" + b)[1..] == a[1..] + "_" + b;
      SeparatorAfter(a[1..], b);
    }
  }

  /** Two texts free of `_`, each followed by `_` and a tail, are equal only
      when the texts and the tails are. */
  lemma SplitAtSeparator(a1: string, b1: string, a2: string, b2: string)
    requires '_' !in a1 && '_' !in a2
    requires a1 + "_" + b1 == a2 + "_" + b2
    ensures a1 == a2 && b1 == b2
  {
    var s := a1 + "_" + b1;
    SeparatorAfter(a1, b1);
    SeparatorAfter(a2, b2);
    assert a1 == s[..|a1|] == a2;
    assert b1 == s[|a1| + 1..] == b2;
  }

  /** A decimal text never holds the `_` that separates the key's parts. */
  lemma NoSeparatorInDecimal(x: int)
    ensures '_' !in DecimalText(x)
  {
  }

  /** Two translucent keys built from `_`-free parts agree only part by part. */
  lemma TranslucentKeyParts(t1: string, u1: string, t2: string, u2: string)
    requires '_' !in t1 && '_' !in t2
    requires "translucent_" + t1 + "_" + u1 == "translucent_" + t2 + "_" + u2
    ensures t1 == t2 && u1 == u2
  {
    assert "translucent_" + t1 + "_" + u1 == "translucent_" + (t1 + "_" + u1);
    assert "translucent_" + t2 + "_" + u2 == "translucent_" + (t2 + "_" + u2);
    StripPrefix("translucent_", t1 + "_" + u1, t2 + "_" + u2);
    SplitAtSeparator(t1, u1, t2, u2);
  }

  /** The same colour with two alphas, or two colours, give two keys. */
  lemma TranslucentKeyInjective(c1: Color, alpha1: Int32, c2: Color, alpha2: Int32)
    ensures TranslucentKey(c1, alpha1) == TranslucentKey(c2, alpha2) ==> c1 == c2 && alpha1 == alpha2
  {
    if TranslucentKey(c1, alpha1) == TranslucentKey(c2, alpha2) {
      NoSeparatorInDecimal(GetRGB(c1));
      NoSeparatorInDecimal(GetRGB(c2));
      TranslucentKeyParts(DecimalText(GetRGB(c1)), DecimalText(alpha1), DecimalText(GetRGB(c2)), DecimalText(alpha2));
      DecimalTextInjective(GetRGB(c1), GetRGB(c2));
      DecimalTextInjective(alpha1, alpha2);
      GetRGBInjective(c1, c2);
    }
  }

  class ColorCache {
    var entries: map<string, Color>
    const darker: Color -> Color
    const brighter: Color -> Color

    /** Every entry holds what its key's computation yields, so a cached
        answer is always the answer. */
    ghost predicate Valid()
      reads this
    {
      && (forall c :: DarkerKey(c) in entries ==> entries[DarkerKey(c)] == darker(c))
      && (forall c :: BrighterKey(c) in entries ==> entries[BrighterKey(c)] == brighter(c))
      && (forall c, alpha :: TranslucentKey(c, alpha) in entries ==>
            Translucent(c, alpha) == Some(entries[TranslucentKey(c, alpha)]))
    }

    constructor (darker: Color -> Color, brighter: Color -> Color)
      ensures this.darker == darker && this.brighter == brighter
      ensures entries == map[] && Valid()
    {
      this.darker := darker;
      this.brighter := brighter;
      entries := map[];
    }

    /** `getDarkerColor`: the darker colour, computed on the first request
        for this colour and cached under its key. */
    method GetDarkerColor(original: Color) returns (color: Color)
      requires Valid()
      modifies this
      ensures Valid()
      ensures color == darker(original)
      ensures entries == old(entries)[DarkerKey(original) := color]
      ensures DarkerKey(original) in old(entries) ==> entries == old(entries)
    {
      var key := DarkerKey(original);
      if key in entries {
        color := entries[key];
      } else {
        color := darker(original);
        forall c | DarkerKey(c) == key ensures c == original {
          DarkerKeyInjective(c, original);
        }
        forall c ensures BrighterKey(c) != key {
          KeyFamiliesDisjoint(original, c, c, 0);
        }
        forall c, alpha: Int32 ensures TranslucentKey(c, alpha) != key {
          KeyFamiliesDisjoint(original, c, c, alpha);
        }
        entries := entries[key := color];
      }
    }

    /** `getBrighterColor`: as `getDarkerColor`, under its own keys. */
    method GetBrighterColor(original: Color) returns (color: Color)
      requires Valid()
      modifies this
      ensures Valid()
      ensures color == brighter(original)
      ensures entries == old(entries)[BrighterKey(original) := color]
      ensures BrighterKey(original) in old(entries) ==> entries == old(entries)
    {
      var key := BrighterKey(original);
      if key in entries {
        color := entries[key];
      } else {
        color := brighter(original);
        forall c | BrighterKey(c) == key ensures c == original {
          BrighterKeyInjective(c, original);
        }
        forall c ensures DarkerKey(c) != key {
          KeyFamiliesDisjoint(c, original, c, 0);
        }
        forall c, alpha: Int32 ensures TranslucentKey(c, alpha) != key {
          KeyFamiliesDisjoint(c, original, c, alpha);
        }
        entries := entries[key := color];
      }
    }

    /** `getTranslucentColor`: the colour with the given alpha, cached per
        colour and alpha; an alpha outside 0..255 fails (`None`) and caches
        nothing. */
    method GetTranslucentColor(original: Color, alpha: Int32) returns (color: Option<Color>)
      requires Valid()
      modifies this
      ensures Valid()
      ensures color == Translucent(original, alpha)
      ensures color.Some? ==> entries == old(entries)[TranslucentKey(original, alpha) := color.value]
      ensures color.None? ==> entries == old(entries)
      ensures TranslucentKey(original, alpha) in old(entries) ==> entries == old(entries)
    {
      var key := TranslucentKey(original, alpha);
      if key in entries {
        color := Some(entries[key]);
      } else if 0 <= alpha <= 255 {
        var made := Translucent(original, alpha).value;
        color := Some(made);
        forall c, a: Int32 | TranslucentKey(c, a) == key ensures c == original && a == alpha {
          TranslucentKeyInjective(c, a, original, alpha);
        }
        forall c ensures DarkerKey(c) != key && BrighterKey(c) != key {
          KeyFamiliesDisjoint(c, c, original, alpha);
        }
        entries := entries[key := made];
      } else {
        color := None;
      }
    }

    /** `clearCache`: forgets every entry, so each later request computes
        afresh. */
    method ClearCache()
      modifies this
      ensures entries == map[] && Valid()
    {
      entries := map[];
    }
  }
}
