/** The read side of the task service: GetTask and GetTasks over the database and Redis. */
module TaskService {
  import opened Prelude
  import opened TaskTable
  import opened RedisKeys
  import opened RedisStore
  import opened TaskCache
  import MonotoneReads

  class TaskService {
    const db: Database
    const redis: Redis<Cached>

    constructor (db: Database, redis: Redis<Cached>)
      ensures this.db == db && this.redis == redis
    {
      this.db, this.redis := db, redis;
    }

    /** The entry under a task's key, as far as GetTask can read it. */
    ghost function TaskEntry(id: int): Option<MonotoneReads.CachedRow>
      reads redis
    {
      var v: Option<Value<Cached>> := Lookup(redis.store, TaskKey(id));
      if v.Some? && v.value.Text? && v.value.text.One?
      then Some(MonotoneReads.CachedRow(v.value.text.row, v.value.until)) else None
    }

    /** The key holds v until the given instant, and no longer. */
    ghost predicate HoldsUntil(key: string, v: Cached, until: int)
      reads redis
    {
      forall at :: Live(Lookup(redis.store, key), at) == if at <= until then Some(Text(v, until)) else None
    }

    /** The row of a task, from the cache if it has one, else from the table, which then fills the
        cache. `getFails` and `setFails` say whether Redis fails to answer in time, `queryFails` whether
        the database does. */
    method GetTask(taskId: int, getFails: bool, queryFails: bool, setFails: bool, at: int) returns (r: Queried<Row>)
      modifies redis
      ensures var (entry, row) := MonotoneReads.GetTask(
        old(TaskEntry(taskId)), if taskId in db.rows then Some(db.rows[taskId]) else None, at,
        getFails, queryFails, setFails);
        && (r.Got? <==> row.Some?) && (r.Got? ==> r.value == row.value)
        && (MonotoneReads.Live(entry, at) ==> TaskEntry(taskId) == entry)
        && (!MonotoneReads.Live(entry, at) ==> !MonotoneReads.Live(TaskEntry(taskId), at))
      ensures var hit := !getFails && MonotoneReads.Live(old(TaskEntry(taskId)), at);
        && (hit ==> r == Got(old(TaskEntry(taskId)).value.row) && redis.store == old(redis.store))
        && (!hit ==> r == if queryFails then QueryFailed
                          else if taskId !in db.rows then NotFound
                          else Got(db.rows[taskId]))
        && (!hit && r.Got? && !setFails ==> HoldsUntil(TaskKey(taskId), One(r.value), at + 3_600_000))
      ensures redis.store - {TaskKey(taskId)} == old(redis.store) - {TaskKey(taskId)}
    {
      var cacheKey := TaskKey(taskId);
      var cachedData := redis.Get(cacheKey, getFails, at);
      if cachedData.Hit? && cachedData.text.One? {
        return Got(cachedData.text.row);
      }
      r := db.GetByID(taskId, queryFails);
      if !r.Got? {
        return;
      }
      var ok := redis.Set(cacheKey, One(r.value), TTL, setFails, at);
      assert ok ==> Live(Lookup(redis.store, cacheKey), at).Some?;
    }

    /** The rows of a user, likewise. Rows that fail to scan are left out. */
    method GetTasks(userId: int, cursor: seq<int>, unreadable: set<int>, getFails: bool, queryFails: bool,
                    breaksOff: Option<nat>, setFails: bool, at: int)
      returns (r: Queried<seq<Row>>)
      requires KeyedById(db.rows) && IsCursor(db.rows, userId, cursor)
      requires breaksOff.Some? ==> breaksOff.value <= |cursor|
      modifies redis
      ensures var cached := Live(Lookup(old(redis.store), UserTasksKey(userId)), at);
        if !getFails && cached.Some? && cached.value.Text? && cached.value.text.Many? then
          r == Got(cached.value.text.rows) && redis.store == old(redis.store)
        else if queryFails || breaksOff.Some? then
          r.QueryFailed? && (getFails ==> redis.store == old(redis.store))
        else
          && r.Got?
          && (forall t :: t in r.value <==>
                t.id in db.rows && db.rows[t.id] == t && t.userId == userId && t.id !in unreadable)
          && InCursorOrder(r.value, cursor) && DistinctIds(r.value)
          && (unreadable == {} ==> ReadFrom(db.rows, UserTasks(userId), Many(r.value)))
          && (!setFails ==> HoldsUntil(UserTasksKey(userId), Many(r.value), at + 3_600_000))
      ensures redis.store - {UserTasksKey(userId)} == old(redis.store) - {UserTasksKey(userId)}
    {
      var cacheKey := UserTasksKey(userId);
      var cachedData := redis.Get(cacheKey, getFails, at);
      if cachedData.Hit? && cachedData.text.Many? {
        return Got(cachedData.text.rows);
      }
      r := db.GetByUserID(userId, cursor, unreadable, queryFails, breaksOff);
      if !r.Got? {
        return;
      }
      var _ := redis.Set(cacheKey, Many(r.value), TTL, setFails, at);
    }
  }
}
