/**
 * `Base` (base.go): an embeddable record with an id and three optional
 * timestamps, and the lazy accessors that fill them. Its timestamp accessors
 * return pointers, so `Base` is not itself a fixed-name document type.
 */
module BaseModel {
  import opened Common
  import opened Values

  /** The fields of a Base: an ObjectID (0 is the zero id) and three `*time.Time` (None is nil, Some(0) the zero time). */
  datatype BaseFields = BaseFields(id: nat, createdAt: Option<nat>, updatedAt: Option<nat>, deletedAt: Option<nat>)

  /** `t == nil || t.IsZero()`. */
  predicate Unset(t: Option<nat>)
  {
    t.None? || t == Some(0)
  }

  /** `DefaultId` on fields `b` with `n` values issued: the new fields, the new count and the id returned. */
  function DefaultIdSpec(b: BaseFields, n: nat): (BaseFields, nat, nat)
  {
    if b.id == 0 then (b.(id := n + 1), n + 1, n + 1) else (b, n, b.id)
  }

  /** `DefaultCreatedAt`: a nil or zero creation time takes the current time. */
  function DefaultCreatedAtSpec(b: BaseFields, n: nat): (BaseFields, nat, Option<nat>)
  {
    var now: nat := n + 1;
    if Unset(b.createdAt) then (b.(createdAt := Some(now)), now, Some(now)) else (b, n, b.createdAt)
  }

  /** `DefaultUpdatedAt`: the update time always takes the current time. */
  function DefaultUpdatedAtSpec(b: BaseFields, n: nat): (BaseFields, nat, Option<nat>)
  {
    var now: nat := n + 1;
    (b.(updatedAt := Some(now)), now, Some(now))
  }

  class Base {
    var id: nat
    var createdAt: Option<nat>
    var updatedAt: Option<nat>
    var deletedAt: Option<nat>

    constructor (b: BaseFields)
      ensures State() == b
    {
      id, createdAt, updatedAt, deletedAt := b.id, b.createdAt, b.updatedAt, b.deletedAt;
    }

    function State(): BaseFields
      reads this
    {
      BaseFields(id, createdAt, updatedAt, deletedAt)
    }

    method DefaultId(src: Source) returns (r: nat)
      modifies this, src
      ensures (State(), src.issued, r) == DefaultIdSpec(old(State()), old(src.issued))
    {
      if id == 0 {
        id := src.Next();
      }
      r := id;
    }

    method DefaultCreatedAt(src: Source) returns (r: Option<nat>)
      modifies this, src
      ensures (State(), src.issued, r) == DefaultCreatedAtSpec(old(State()), old(src.issued))
    {
      if createdAt.None? || createdAt.value == 0 {
        var now := src.Next();
        createdAt := Some(now);
      }
      r := createdAt;
    }

    method DefaultUpdatedAt(src: Source) returns (r: Option<nat>)
      modifies this, src
      ensures (State(), src.issued, r) == DefaultUpdatedAtSpec(old(State()), old(src.issued))
    {
      var now := src.Next();
      updatedAt := Some(now);
      r := updatedAt;
    }
  }

  /**
   * `DefaultId` returns a non-zero id unchanged and issues nothing; a zero id
   * is replaced by a fresh non-zero one. Only the id can change, and a
   * second call changes nothing.
   */
  lemma DefaultIdProperties(b: BaseFields, n: nat)
    ensures var (b', n', r) := DefaultIdSpec(b, n);
      r == b'.id && r != 0
      && (b.id != 0 ==> b' == b && n' == n)
      && (b.id == 0 ==> r == n + 1 && n' == n + 1)
      && b' == b.(id := b'.id)
      && DefaultIdSpec(b', n') == (b', n', r)
  {
  }

  /**
   * `DefaultCreatedAt` fills only a nil or zero creation time, with a fresh
   * non-zero time; it never touches the other fields, and a second call
   * changes nothing (it is idempotent).
   */
  lemma DefaultCreatedAtProperties(b: BaseFields, n: nat)
    ensures var (b', n', r) := DefaultCreatedAtSpec(b, n);
      r == b'.createdAt && !Unset(r)
      && (!Unset(b.createdAt) ==> b' == b && n' == n)
      && (Unset(b.createdAt) ==> r == Some(n + 1) && n' == n + 1)
      && b' == b.(createdAt := b'.createdAt)
      && DefaultCreatedAtSpec(b', n') == (b', n', r)
  {
  }

  /** `DefaultUpdatedAt` always takes a fresh time, different from the one before, and touches nothing else. */
  lemma DefaultUpdatedAtProperties(b: BaseFields, n: nat)
    requires b.updatedAt.Some? ==> b.updatedAt.value <= n
    ensures var (b', n', r) := DefaultUpdatedAtSpec(b, n);
      r == b'.updatedAt && r == Some(n') && n' == n + 1 && r != b.updatedAt && !Unset(r)
      && b' == b.(updatedAt := r)
  {
  }
}
