/** The records the game code keeps in the store (backend/src/game.rs and
    backend/src/game/player.rs), in their serialised form. */
module Records {
  import opened Cards
  import Decks

  datatype PlayerRecord = PlayerRecord(playerId: string, gameId: string, hand: seq<Card>)

  datatype GameRecord = GameRecord(id: string, createdAt: nat, owner: string,
                                   decks: seq<Decks.DeckRecord>, players: seq<string>)
}

/** The keyed record store of backend/src/db_utils.rs: one table whose
    keys are `"{prefix}:{key}"`, each entity type supplying its prefix. */
module Store {
  import opened Wrappers
  import opened Records
  import Decks

  /** The entity types that implement `Key`. */
  datatype EntityKind = RefreshTokenKey | ConnectionKey | GameKey | PlayerKey | DeckKey

  function Prefix(kind: EntityKind): (p: string)
    ensures |p| >= 9
    ensures p[..5] == "game:" <==> kind.GameKey? || kind.PlayerKey? || kind.DeckKey?
  {
    match kind
    case RefreshTokenKey => assert "refresh_token"[..5][0] == 'r'; "refresh_token"
    case ConnectionKey => assert "connection"[..5][0] == 'c'; "connection"
    case GameKey => "game:game"
    case PlayerKey => "game:player"
    case DeckKey => "game:deck"
  }

  /** `Key::key`: the prefix, a colon, and the key. */
  function Key(kind: EntityKind, key: string): (r: string)
    ensures |r| == |Prefix(kind)| + 1 + |key|
    ensures r[..|Prefix(kind)|] == Prefix(kind)
    ensures r[|Prefix(kind)|] == ':'
    ensures r[|Prefix(kind)| + 1..] == key
  {
    Prefix(kind) + ":" + key
  }

  predicate HasPrefix(r: string, kind: EntityKind)
  {
    |r| > |Prefix(kind)| && r[..|Prefix(kind)|] == Prefix(kind) && r[|Prefix(kind)|] == ':'
  }

  /** Splits a table key back into its entity type and key. */
  function ParseKey(r: string): (p: Option<(EntityKind, string)>)
    ensures p.Some? ==> HasPrefix(r, p.value.0) && r[|Prefix(p.value.0)| + 1..] == p.value.1
  {
    if HasPrefix(r, RefreshTokenKey) then Some((RefreshTokenKey, r[|Prefix(RefreshTokenKey)| + 1..]))
    else if HasPrefix(r, ConnectionKey) then Some((ConnectionKey, r[|Prefix(ConnectionKey)| + 1..]))
    else if HasPrefix(r, GameKey) then Some((GameKey, r[|Prefix(GameKey)| + 1..]))
    else if HasPrefix(r, PlayerKey) then Some((PlayerKey, r[|Prefix(PlayerKey)| + 1..]))
    else if HasPrefix(r, DeckKey) then Some((DeckKey, r[|Prefix(DeckKey)| + 1..]))
    else None
  }

  /** A table key names its entity type and key: parsing it gives both
      back. */
  lemma KeyRoundTrip(kind: EntityKind, key: string)
    ensures ParseKey(Key(kind, key)) == Some((kind, key))
  {
    var r := Key(kind, key);
    assert r[0] == Prefix(kind)[0];
    assert r[5] == Prefix(kind)[5];
  }

  /** Distinct keys of one entity type, and keys of distinct entity types
      (a Connection and a RefreshToken among them), never share a table
      key. */
  lemma KeyDetermines(kind1: EntityKind, key1: string, kind2: EntityKind, key2: string)
    requires Key(kind1, key1) == Key(kind2, key2)
    ensures kind1 == kind2 && key1 == key2
  {
    KeyRoundTrip(kind1, key1);
    KeyRoundTrip(kind2, key2);
  }

  /** The stored form of every value type: `Connection` and `RefreshToken`
      store a `String`, the other entities their own record. */
  datatype Value = Text(text: string) | GameValue(game: GameRecord) | PlayerValue(player: PlayerRecord)
                 | DeckValue(deck: Decks.DeckRecord)

  /** Whether a stored value deserialises as the value type of `kind`. */
  predicate Decodes(kind: EntityKind, v: Value)
  {
    match kind
    case RefreshTokenKey => v.Text?
    case ConnectionKey => v.Text?
    case GameKey => v.GameValue?
    case PlayerKey => v.PlayerValue?
    case DeckKey => v.DeckValue?
  }

  /** Every entry deserialises as the type its key prefix names. */
  ghost predicate WellTyped(m: map<string, Value>)
  {
    forall kind, key :: Key(kind, key) in m ==> Decodes(kind, m[Key(kind, key)])
  }

  /** `get_entry`: the stored value, "item does not exist" when the key is
      absent, or a deserialisation error when it holds another type. */
  function Lookup(m: map<string, Value>, kind: EntityKind, key: string): (r: Result<Value, string>)
    ensures r.Ok? <==> Key(kind, key) in m && Decodes(kind, m[Key(kind, key)])
    ensures r.Ok? ==> r.value == m[Key(kind, key)]
    ensures Key(kind, key) !in m ==> r == Err("item does not exist")
    ensures !r.Panic?
  {
    var k := Key(kind, key);
    if k !in m then Err("item does not exist")
    else if !Decodes(kind, m[k]) then Err("invalid json")
    else Ok(m[k])
  }

  /** `delete_entry`, with the expected value its callers pass: an absent
      key or a stored value other than the expected one fails and changes
      nothing; otherwise the entry is removed and its old value returned. */
  function DeleteOutcome(m: map<string, Value>, kind: EntityKind, key: string, expected: Option<Value>)
    : (out: (Result<Value, string>, map<string, Value>))
    ensures !out.0.Panic?
    ensures out.0.Ok? ==> Key(kind, key) in m && out.0.value == m[Key(kind, key)]
    ensures out.1 == m || out.1 == m - {Key(kind, key)}
    ensures out.1 != m <==> Key(kind, key) in m && (expected.None? || expected.value == m[Key(kind, key)])
  {
    var k := Key(kind, key);
    if k !in m then
      (if expected.Some? then Err("the conditional request failed") else Err("item does not exist"), m)
    else if expected.Some? && expected.value != m[k] then
      (Err("the conditional request failed"), m)
    else
      (if Decodes(kind, m[k]) then Ok(m[k]) else Err("invalid json"), m - {k})
  }

  /** `get` after `put` of the same key returns the stored value. */
  lemma GetAfterPut(m: map<string, Value>, kind: EntityKind, key: string, v: Value)
    requires Decodes(kind, v)
    ensures Lookup(m[Key(kind, key) := v], kind, key) == Ok(v)
  {
  }

  /** `put` on one key leaves what every other key reads unchanged. */
  lemma PutLeavesOthers(m: map<string, Value>, kind: EntityKind, key: string, v: Value,
                        otherKind: EntityKind, otherKey: string)
    requires kind != otherKind || key != otherKey
    ensures Lookup(m[Key(kind, key) := v], otherKind, otherKey) == Lookup(m, otherKind, otherKey)
  {
    if Key(kind, key) == Key(otherKind, otherKey) {
      KeyDetermines(kind, key, otherKind, otherKey);
    }
  }

  /** An unconditional delete of a present, well-typed entry returns the
      stored value and leaves the key absent; of an absent key it fails
      with "item does not exist". */
  lemma DeleteReturnsStored(m: map<string, Value>, kind: EntityKind, key: string)
    requires WellTyped(m)
    ensures Key(kind, key) in m ==>
      && DeleteOutcome(m, kind, key, None).0 == Ok(m[Key(kind, key)])
      && Lookup(DeleteOutcome(m, kind, key, None).1, kind, key) == Err("item does not exist")
    ensures Key(kind, key) !in m ==> DeleteOutcome(m, kind, key, None) == (Err("item does not exist"), m)
  {
  }

  /** In a well-typed table a read fails only on an absent key. */
  lemma WellTypedReads(m: map<string, Value>, kind: EntityKind, key: string)
    requires WellTyped(m)
    ensures Lookup(m, kind, key).Ok? <==> Key(kind, key) in m
  {
  }

  /** Storing a value of the right type keeps a table well typed. */
  lemma PutKeepsWellTyped(m: map<string, Value>, kind: EntityKind, key: string, v: Value)
    requires WellTyped(m) && Decodes(kind, v)
    ensures WellTyped(m[Key(kind, key) := v])
  {
    forall kind2, key2 | Key(kind2, key2) in m[Key(kind, key) := v]
      ensures Decodes(kind2, m[Key(kind, key) := v][Key(kind2, key2)])
    {
      if Key(kind2, key2) == Key(kind, key) {
        KeyDetermines(kind2, key2, kind, key);
      }
    }
  }

  /** The single table, held by the store client. */
  class Table {
    var entries: map<string, Value>

    ghost predicate Valid()
      reads this
    {
      WellTyped(entries)
    }

    constructor ()
      ensures Valid() && entries == map[]
    {
      entries := map[];
    }

    /** `get_entry`. */
    function Get(kind: EntityKind, key: string): (r: Result<Value, string>)
      reads this
      ensures r == Lookup(entries, kind, key)
    {
      Lookup(entries, kind, key)
    }

    /** `put_entry`: writes the value under its prefixed key. The value's
        type is the entity's value type, as the trait's signature demands. */
    method Put(kind: EntityKind, key: string, v: Value)
      requires Valid() && Decodes(kind, v)
      modifies this
      ensures Valid()
      ensures entries == old(entries)[Key(kind, key) := v]
    {
      PutKeepsWellTyped(entries, kind, key, v);
      entries := entries[Key(kind, key) := v];
    }

    /** `delete_entry`, conditional on `expected` when that is given. */
    method Delete(kind: EntityKind, key: string, expected: Option<Value>) returns (r: Result<Value, string>)
      requires Valid()
      modifies this
      ensures Valid()
      ensures (r, entries) == DeleteOutcome(old(entries), kind, key, expected)
    {
      var out := DeleteOutcome(entries, kind, key, expected);
      r, entries := out.0, out.1;
    }
  }
}
