/**
 The encoder's growing buffer and the decoder's moving position, with the two
 encodings that are written and read in loops.
 */
module RuntimeCursor {
  import opened Prelude
  import opened Bytes
  import opened Strings
  import opened KernelModel
  import opened RuntimeCodec
  import Context
  import Utf8

  type Decoded<T> = Result<T, CodecError>

  class Encoder {
    var bytes: seq<Byte>

    constructor ()
      ensures bytes == []
    {
      bytes := [];
    }

    method Raw(value: seq<Byte>)
      modifies this
      ensures bytes == old(bytes) + value
    {
      bytes := bytes + value;
    }

    method U8(tag: nat)
      modifies this
      ensures forall rest {:trigger PutTag(tag, rest)} :: bytes + rest == old(bytes) + PutTag(tag, rest)
    {
      bytes := bytes + LE(1, tag);
    }

    method U32(value: U32)
      modifies this
      ensures forall rest {:trigger PutU32(value, rest)} :: bytes + rest == old(bytes) + PutU32(value, rest)
    {
      bytes := bytes + LE(4, value);
    }

    method U64(value: U64)
      modifies this
      ensures forall rest {:trigger PutU64(value, rest)} :: bytes + rest == old(bytes) + PutU64(value, rest)
    {
      bytes := bytes + LE(8, value);
    }

    method I64(value: int)
      requires Signed64(value)
      modifies this
      ensures forall rest {:trigger PutTime(value, rest)} :: bytes + rest == old(bytes) + PutTime(value, rest)
    {
      U64(Unsigned(value));
    }

    /** Refused only when the length cannot be counted in 32 bits. */
    method Text(value: string) returns (r: Decoded<()>)
      modifies this
      ensures r == if Utf8Length(value) <= U32_MAX then Ok(()) else Err(TooLong)
      ensures r.Ok? ==> forall rest {:trigger PutText(value, rest)} :: bytes + rest == old(bytes) + PutText(value, rest)
    {
      var raw := Utf8.Encode(value);
      Utf8.EncodedLength(value);
      if |raw| > U32_MAX {
        return Err(TooLong);
      }
      ghost var before := bytes;
      U32(|raw|);
      ghost var counted := bytes;
      Raw(raw);
      forall rest
        ensures bytes + rest == before + PutText(value, rest)
      {
        assert PutText(value, rest) == PutU32(|raw|, raw + rest);
        assert bytes + rest == counted + (raw + rest);
      }
      return Ok(());
    }

    method OptionalU64(value: Option<U64>)
      modifies this
      ensures forall rest {:trigger PutOptional(WordPut(), value, rest)} :: bytes + rest == old(bytes) + PutOptional(WordPut(), value, rest)
    {
      hide PutTag, PutU64;
      ghost var before := bytes;
      if value.None? {
        U8(0);
      } else {
        U8(1);
        U64(value.value);
      }
      forall rest
        ensures bytes + rest == before + PutOptional(WordPut(), value, rest)
      {
        if value.Some? {
          assert PutOptional(WordPut(), value, rest) == PutTag(1, PutU64(value.value, rest));
        }
      }
    }

    method UsageRecord(k: Codebook, usage: UsageRecord) returns (r: Decoded<()>)
      modifies this
      ensures r == if usage.tier.Some? && !NameFits(k, U32_MAX, usage.tier.value) then Err(TooLong) else Ok(())
      ensures r.Ok? ==> forall rest {:trigger PutUsage(k, usage, rest)} :: bytes + rest == old(bytes) + PutUsage(k, usage, rest)
    {
      hide PutTag, PutText, AccuracyTag, Utf8Length;
      ghost var before := bytes;
      OptionalU64(usage.input);
      OptionalU64(usage.cachedInput);
      OptionalU64(usage.cacheWrite);
      OptionalU64(usage.output);
      OptionalU64(usage.reasoningOutput);
      OptionalU64(usage.total);
      ghost var counted := bytes;
      if usage.tier.None? {
        U8(0);
      } else {
        U8(1);
        var text := Text(k.text(usage.tier.value));
        if text.Err? {
          return Err(TooLong);
        }
      }
      ghost var tiered := bytes;
      forall rest
        ensures tiered + rest == counted + PutOptional(TierPut(k), usage.tier, rest)
      {
        if usage.tier.Some? {
          assert PutOptional(TierPut(k), usage.tier, rest) == PutTag(1, PutText(k.text(usage.tier.value), rest));
        }
      }
      U8(AccuracyTag(usage.accuracy));
      hide PutOptional, WordPut, TierPut;
      return Ok(());
    }

    /** The payload of an attempt's beginning. */
    method AttemptStarted(turn: Id, attempt: U32, startedAt: int)
      requires Signed64(startedAt)
      modifies this
      ensures forall rest {:trigger PutTime(startedAt, rest)} ::
                bytes + rest == old(bytes) + PutU64(turn, PutU32(attempt, PutTime(startedAt, rest)))
    {
      hide PutU64, PutU32, PutTime;
      U64(turn);
      U32(attempt);
      I64(startedAt);
    }

    /** The artifacts loop, then the recent items loop. */
    method ContextCheckpoint(c: Checkpoint)
      requires |c.artifacts| <= U32_MAX && |c.recent| <= U32_MAX
      modifies this
      ensures forall rest {:trigger PutCheckpoint(c, rest)} :: bytes + rest == old(bytes) + PutCheckpoint(c, rest)
    {
      hide PutU64, PutText, Utf8Length, PutNumber, Context.HeadOf;
      var head := Context.HeadOf(c.source);
      U64(head.transaction);
      U64(head.sequence);
      ghost var headed := bytes;
      U32(|c.artifacts|);
      ghost var counted := bytes;
      for i := 0 to |c.artifacts|
        invariant forall rest :: bytes + PutList(ArtifactPut(), c.artifacts[i..], rest) == counted + PutList(ArtifactPut(), c.artifacts, rest)
      {
        Artifact(c.artifacts[i]);
        assert c.artifacts[i..][1..] == c.artifacts[i + 1..];
      }
      assert forall rest :: PutList(ArtifactPut(), c.artifacts[|c.artifacts|..], rest) == rest;
      ghost var listed := bytes;
      assert forall rest :: listed + rest == headed + PutCounted(ArtifactPut(), c.artifacts, rest) by {
        hide PutList;
        forall rest
          ensures listed + rest == headed + PutCounted(ArtifactPut(), c.artifacts, rest)
        {
          assert PutCounted(ArtifactPut(), c.artifacts, rest) == PutU32(|c.artifacts|, PutList(ArtifactPut(), c.artifacts, rest));
        }
      }
      U32(|c.recent|);
      ghost var recounted := bytes;
      for i := 0 to |c.recent|
        invariant forall rest :: bytes + PutList(RecentPut(), c.recent[i..], rest) == recounted + PutList(RecentPut(), c.recent, rest)
      {
        Recent(c.recent[i]);
        assert c.recent[i..][1..] == c.recent[i + 1..];
      }
      assert forall rest :: PutList(RecentPut(), c.recent[|c.recent|..], rest) == rest;
      assert forall rest :: bytes + rest == listed + PutCounted(RecentPut(), c.recent, rest) by {
        hide PutList;
        forall rest
          ensures bytes + rest == listed + PutCounted(RecentPut(), c.recent, rest)
        {
          assert PutCounted(RecentPut(), c.recent, rest) == PutU32(|c.recent|, PutList(RecentPut(), c.recent, rest));
        }
      }
      hide PutCounted, PutList, ArtifactPut, RecentPut;
    }

    method Artifact(a: Context.ArtifactRef)
      modifies this
      ensures forall rest {:trigger ArtifactPut()(a, rest)} :: bytes + rest == old(bytes) + ArtifactPut()(a, rest)
    {
      hide PutU64, PutTag, RoleTag;
      U64(a.item);
      U64(a.turn);
      U8(RoleTag(a.role));
      U64(a.bytes);
      U64(a.tokens);
      ghost var before := bytes;
      Raw(LE(32, a.digest));
      assert forall rest {:trigger PutNumber(32, a.digest, rest)} :: bytes + rest == before + PutNumber(32, a.digest, rest);
      hide PutNumber;
    }

    /** An item's text is never too long to count. */
    method Recent(v: Context.ViewItem)
      modifies this
      ensures forall rest {:trigger RecentPut()(v, rest)} :: bytes + rest == old(bytes) + RecentPut()(v, rest)
    {
      hide PutU64, PutTag, RoleTag, PutText, Utf8Length;
      U64(v.item);
      U64(v.turn);
      U8(RoleTag(v.role));
      var text := Text(v.text.content);
      assert text.Ok?;
    }
  }

  class Decoder {
    const bytes: seq<Byte>
    var position: nat

    ghost predicate Valid()
      reads this
    {
      position <= |bytes|
    }

    /** What is left to read. */
    ghost function Rest(): seq<Byte>
      requires Valid()
      reads this
    {
      bytes[position..]
    }

    /** The result and the new position are what reading from the front gives. */
    ghost predicate Read<T>(r: Decoded<T>, expected: RuntimeCodec.Read<T>)
      requires Valid()
      reads this
    {
      match expected
      case Ok(read) => r == Ok(read.0) && Rest() == read.1
      case Err(error) => r == Err(error)
    }

    constructor (input: seq<Byte>)
      ensures Valid() && Rest() == input
    {
      bytes := input;
      position := 0;
    }

    method Take(length: nat) returns (r: Decoded<seq<Byte>>)
      requires Valid()
      modifies this
      ensures Valid() && Read(r, GetBytes(length, old(Rest())))
    {
      if position + length > |bytes| {
        return Err(CorruptEvent);
      }
      ghost var before := Rest();
      assert before[..length] == bytes[position..position + length] && before[length..] == bytes[position + length..];
      r := Ok(bytes[position..position + length]);
      position := position + length;
    }

    method U8() returns (r: Decoded<nat>)
      requires Valid()
      modifies this
      ensures Valid() && Read(r, GetTag(old(Rest())))
    {
      var raw :- Take(1);
      r := Ok(FromLE(raw));
    }

    method U32() returns (r: Decoded<U32>)
      requires Valid()
      modifies this
      ensures Valid() && Read(r, GetU32(old(Rest())))
    {
      Widths();
      var raw :- Take(4);
      r := Ok(FromLE(raw));
    }

    method U64() returns (r: Decoded<U64>)
      requires Valid()
      modifies this
      ensures Valid() && Read(r, GetU64(old(Rest())))
    {
      Widths();
      var raw :- Take(8);
      r := Ok(FromLE(raw));
    }

    method Text(max: nat) returns (r: Decoded<string>)
      requires Valid()
      modifies this
      ensures Valid() && Read(r, GetText(max, old(Rest())))
    {
      hide GetU32;
      var length :- U32();
      if length > max {
        return Err(CorruptEvent);
      }
      var raw :- Take(length);
      var text := Utf8.Decode(raw);
      if text.None? {
        return Err(CorruptEvent);
      }
      r := Ok(text.value);
    }

    method Role() returns (r: Decoded<Context.Role>)
      requires Valid()
      modifies this
      ensures Valid() && Read(r, GetRole(old(Rest())))
    {
      hide GetTag;
      var tag :- U8();
      if tag == 1 {
        r := Ok(Context.User);
      } else if tag == 2 {
        r := Ok(Context.Assistant);
      } else {
        r := Err(CorruptEvent);
      }
    }

    method Artifact() returns (r: Decoded<Context.ArtifactRef>)
      requires Valid()
      modifies this
      ensures Valid() && Read(r, GetArtifact(old(Rest())))
    {
      hide GetU64, GetRole;
      var item :- U64();
      var turn :- U64();
      var role :- Role();
      var length :- U64();
      var tokens :- U64();
      var digest :- Take(32);
      if item == 0 || turn == 0 || length == 0 || length > Context.MAX_ITEM_TEXT_BYTES || tokens == 0 {
        return Err(InvalidView(Context.InvalidStoredView));
      }
      r := Ok(Context.ArtifactRef(item, turn, role, length, tokens, FromLE(digest)));
    }

    method Recent(k: Codebook) returns (r: Decoded<Context.ViewItem>)
      requires Valid()
      modifies this
      ensures Valid() && Read(r, GetRecent(k, old(Rest())))
    {
      hide GetU64, GetRole, GetText, ItemText, TextOf;
      var item :- U64();
      var turn :- U64();
      var role :- Role();
      var text :- Text(Context.MAX_CONTEXT_VIEW_BYTES);
      if item == 0 || turn == 0 || !ItemText(text) {
        return Err(InvalidView(Context.InvalidStoredView));
      }
      r := Ok(Context.Project(NewItem(item, turn, role, text, k.digest(text))));
    }

    /** The counted loop over artifacts. */
    method Artifacts() returns (r: Decoded<seq<Context.ArtifactRef>>)
      requires Valid()
      modifies this
      ensures Valid() && Read(r, GetCounted(ArtifactGet(), 0, Context.MAX_CONTEXT_VIEW_ITEMS, old(Rest())))
    {
      hide GetU32, GetArtifact;
      var count :- U32();
      if count > Context.MAX_CONTEXT_VIEW_ITEMS {
        return Err(CorruptEvent);
      }
      ghost var start := Rest();
      var artifacts: seq<Context.ArtifactRef> := [];
      PrependNone(GetList(ArtifactGet(), count, start));
      for i := 0 to count
        invariant Valid()
        invariant GetList(ArtifactGet(), count, start) == Prepend(artifacts, GetList(ArtifactGet(), count - i, Rest()))
      {
        ghost var here := Rest();
        assert ArtifactGet()(here) == GetArtifact(here);
        var artifact :- Artifact();
        PrependMore(artifacts, artifact, GetList(ArtifactGet(), count - i - 1, Rest()));
        artifacts := artifacts + [artifact];
      }
      assert artifacts + [] == artifacts;
      r := Ok(artifacts);
    }

    /** The counted loop over recent items; both lists together are limited. */
    method RecentItems(k: Codebook, most: nat) returns (r: Decoded<seq<Context.ViewItem>>)
      requires Valid()
      modifies this
      ensures Valid() && Read(r, GetCounted(RecentGet(k), 0, most, old(Rest())))
    {
      hide GetU32, GetRecent;
      var count :- U32();
      if count > most {
        return Err(CorruptEvent);
      }
      ghost var start := Rest();
      var items: seq<Context.ViewItem> := [];
      PrependNone(GetList(RecentGet(k), count, start));
      for i := 0 to count
        invariant Valid()
        invariant GetList(RecentGet(k), count, start) == Prepend(items, GetList(RecentGet(k), count - i, Rest()))
      {
        ghost var here := Rest();
        assert RecentGet(k)(here) == GetRecent(k, here);
        var item :- Recent(k);
        PrependMore(items, item, GetList(RecentGet(k), count - i - 1, Rest()));
        items := items + [item];
      }
      assert items + [] == items;
      r := Ok(items);
    }

    method ContextCheckpoint(k: Codebook) returns (r: Decoded<Checkpoint>)
      requires Valid()
      modifies this
      ensures Valid() && Read(r, GetCheckpoint(k, old(Rest())))
    {
      hide GetU64, GetCounted, ArtifactGet, RecentGet, Context.FromStored, Context.RangeOf;
      var transaction :- U64();
      var sequence :- U64();
      if (transaction == 0) != (sequence == 0) {
        return Err(CorruptEvent);
      }
      var artifacts :- Artifacts();
      if |artifacts| > Context.MAX_CONTEXT_VIEW_ITEMS {
        return Err(CorruptEvent);
      }
      var recent :- RecentItems(k, Context.MAX_CONTEXT_VIEW_ITEMS - |artifacts|);
      var view := Context.ReadStored(Context.RangeOf(Context.Head(transaction, sequence)), artifacts, recent);
      if view.Err? {
        return Err(InvalidView(view.error));
      }
      r := Ok(view.value);
    }

    /** Nothing may be left over. */
    method Finish() returns (r: Decoded<()>)
      requires Valid()
      ensures r == if Rest() == [] then Ok(()) else Err(CorruptEvent)
    {
      if position == |bytes| {
        return Ok(());
      }
      return Err(CorruptEvent);
    }
  }

  ghost function Prepend<T>(read: seq<T>, later: RuntimeCodec.Read<seq<T>>): RuntimeCodec.Read<seq<T>> {
    match later
    case Err(error) => Err(error)
    case Ok(r) => Ok((read + r.0, r.1))
  }

  lemma PrependNone<T>(later: RuntimeCodec.Read<seq<T>>)
    ensures Prepend([], later) == later
  {
    if later.Ok? {
      assert [] + later.value.0 == later.value.0;
    }
  }

  lemma PrependMore<T>(read: seq<T>, next: T, later: RuntimeCodec.Read<seq<T>>)
    ensures Prepend(read, Prepend([next], later)) == Prepend(read + [next], later)
  {
    if later.Ok? {
      assert read + ([next] + later.value.0) == (read + [next]) + later.value.0;
    }
  }
}
