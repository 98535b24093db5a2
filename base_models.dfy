/**
 * `BaseDjangoModel` of common/base_models.py: the abstract model every app model extends, with its
 * creation and modification timestamps and its `is_active` flag. The clock (`timezone.now()`) is
 * given to each operation as a value, and the persistence `super().save()` performs is reduced to
 * what it does to the primary key: an unsaved object (pk None) receives the key the database
 * assigns, and a set key is kept.
 */
module BaseModels {
  import opened Wrappers

  /** The stored state of one object: its primary key, its timestamps and `is_active`. */
  datatype Row = Row(pk: Option<int>, createDate: int, updateDate: int, isActive: bool)

  /** `if self.pk:` — an unsaved object (None) and the key 0 are both falsy. */
  predicate HasPk(pk: Option<int>) {
    pk.Some? && pk.value != 0
  }

  /** What `super().save()` leaves as the key: the assigned one for an object without a key. */
  function Persisted(pk: Option<int>, assignedPk: int): Option<int> {
    if pk.None? then Some(assignedPk) else pk
  }

  /**
   * The state after `save`: the creation time moves to `createNow` only when there is no (truthy)
   * key, the modification time always moves to `updateNow` (the two `timezone.now()` calls), and
   * `is_active` stays as it was.
   */
  function Saved(row: Row, createNow: int, updateNow: int, assignedPk: int): (r: Row)
    ensures r.createDate == if HasPk(row.pk) then row.createDate else createNow
    ensures r.updateDate == updateNow
    ensures r.isActive == row.isActive
    ensures HasPk(row.pk) ==> r.pk == row.pk
  {
    var createDate := if !HasPk(row.pk) then createNow else row.createDate;
    Row(Persisted(row.pk, assignedPk), createDate, updateNow, row.isActive)
  }

  /**
   * Saving twice, the second time with the key the first save received, keeps the creation time of
   * the first save and takes the modification time of the second; with no key to begin with the
   * creation time is that of the first save. A key of 0 is the exception (`ZeroKeyResetsCreation`).
   */
  lemma {:induction false} SaveTwice(row: Row, c1: int, u1: int, c2: int, u2: int, k1: int, k2: int)
    requires k1 != 0 && row.pk != Some(0)
    ensures var twice := Saved(Saved(row, c1, u1, k1), c2, u2, k2);
      && twice.createDate == Saved(row, c1, u1, k1).createDate
      && twice.updateDate == u2
      && (row.pk.None? ==> twice.createDate == c1 && twice.pk == Some(k1))
  {
    var once := Saved(row, c1, u1, k1);
    assert once.pk == Persisted(row.pk, k1);
    if row.pk.None? {
      assert HasPk(once.pk);
    }
  }

  /** A key of 0 is falsy: every save of such an object rewrites its creation time. */
  lemma ZeroKeyResetsCreation(row: Row, createNow: int, updateNow: int, assignedPk: int)
    requires row.pk == Some(0)
    ensures Saved(row, createNow, updateNow, assignedPk).createDate == createNow
    ensures Saved(row, createNow, updateNow, assignedPk).pk == Some(0)
  {
  }

  class BaseDjangoModel {
    var pk: Option<int>
    var createDate: int
    var updateDate: int
    var isActive: bool

    /**
     * A new, unsaved object: each timestamp defaults to the clock as read for that field (the two
     * `default=timezone.now` calls are separate), `is_active` to True.
     */
    constructor (createNow: int, updateNow: int)
      ensures State() == Row(None, createNow, updateNow, true)
    {
      pk := None;
      createDate := createNow;
      updateDate := updateNow;
      isActive := true;
    }

    function State(): Row
      reads this
    {
      Row(pk, createDate, updateDate, isActive)
    }

    /** `save`: stamps the object, then persists it. */
    method Save(createNow: int, updateNow: int, assignedPk: int)
      modifies this
      ensures State() == Saved(old(State()), createNow, updateNow, assignedPk)
    {
      if !HasPk(pk) {
        createDate := createNow;
      }
      updateDate := updateNow;
      if pk.None? {
        pk := Some(assignedPk);
      }
    }
  }

  /** A new object saved twice keeps the creation time of its first save. */
  method CreateAndSaveTwice(createNow: int, updateNow: int, c1: int, u1: int, c2: int, u2: int, k: int) returns (obj: BaseDjangoModel)
    requires k != 0
    ensures obj.createDate == c1 && obj.updateDate == u2 && obj.pk == Some(k) && obj.isActive
  {
    obj := new BaseDjangoModel(createNow, updateNow);
    obj.Save(c1, u1, k);
    obj.Save(c2, u2, k);
    SaveTwice(Row(None, createNow, updateNow, true), c1, u1, c2, u2, k, k);
  }
}
