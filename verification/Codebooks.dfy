/** A codebook exists: names and texts can be put in one-to-one correspondence by counting in the number of scalars. */
module Codebooks {
  import opened Prelude
  import opened Bytes
  import opened KernelModel
  import opened RuntimeCodec

  /** Unicode scalar values, the surrogates left out. */
  const SCALARS: nat := 0x10_F800

  function Rank(c: char): (rank: nat)
    ensures rank < SCALARS
  {
    var code := c as int;
    if code < 0xD800 then code else code - 0x800
  }

  function CharOf(rank: nat): char
    requires rank < SCALARS
  {
    if rank < 0xD800 then rank as char else (rank + 0x800) as char
  }

  function Number(s: string): nat {
    if |s| == 0 then 0 else Number(s[..|s| - 1]) * SCALARS + Rank(s[|s| - 1]) + 1
  }

  function Spell(n: nat): string {
    if n == 0 then "" else Spell((n - 1) / SCALARS) + [CharOf((n - 1) % SCALARS)]
  }

  lemma Digits(high: nat, low: nat)
    requires low < SCALARS
    ensures (high * SCALARS + low) / SCALARS == high && (high * SCALARS + low) % SCALARS == low
  {
  }

  lemma CharRanked(c: char)
    ensures CharOf(Rank(c)) == c
  {
  }

  lemma SpellStep(high: nat, c: char)
    ensures Spell(high * SCALARS + Rank(c) + 1) == Spell(high) + [c]
  {
    hide Rank, CharOf;
    Digits(high, Rank(c));
    CharRanked(c);
  }

  lemma SpellNothing()
    ensures Spell(0) == ""
  {
  }

  lemma {:induction false} SpellNumber(s: string)
    ensures Spell(Number(s)) == s
    decreases |s|
  {
    hide Spell, Rank, SCALARS;
    if |s| == 0 {
      SpellNothing();
    } else {
      var init, last := s[..|s| - 1], s[|s| - 1];
      SpellNumber(init);
      SpellStep(Number(init), last);
      assert init + [last] == s;
    }
  }

  lemma {:induction false} NumberSpell(n: nat)
    ensures Number(Spell(n)) == n
    decreases n
  {
    if n > 0 {
      NumberSpell((n - 1) / SCALARS);
      var init, last := Spell((n - 1) / SCALARS), CharOf((n - 1) % SCALARS);
      assert (init + [last])[..|init|] == init && (init + [last])[|init|] == last;
      assert Rank(last) == (n - 1) % SCALARS;
    }
  }

  /** Names are spelled numbers; one configuration and one provider are stored, as nothing. */
  function Sample(config: Config, provider: Provider, digest: string -> nat): Codebook {
    Codebook(Spell, Number, digest, (c: Config) => [], (b: seq<Byte>) => Some(config), (p: Provider) => [], (b: seq<Byte>) => Some(provider), 0, 1)
  }

  /** For any configuration, provider and digest some faithful codebook stores them, so what is proved of faithful
      codebooks is never empty. */
  lemma FaithfulExists(config: Config, provider: Provider, digest: string -> nat)
    ensures var k := Sample(config, provider, digest);
            && Faithful(k) && k.digest == digest
            && k.getConfig(k.putConfig(config)) == Some(config) && k.getProvider(k.putProvider(provider)) == Some(provider)
  {
    var k := Sample(config, provider, digest);
    forall n: nat
      ensures k.token(k.text(n)) == n
    {
      NumberSpell(n);
    }
    forall s: string
      ensures k.text(k.token(s)) == s
    {
      SpellNumber(s);
    }
  }
}
