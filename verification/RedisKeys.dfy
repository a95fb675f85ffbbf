/** The three families of keys that the application keeps in one Redis database. */
module RedisKeys {
  import opened Numerals

  datatype Key = Limiter(userId: int) | Task(taskId: int) | UserTasks(ownerId: int)

  function UserRateLimiterKey(userId: int): string {
    "rate_limiter:user:" + Decimal(userId)
  }

  function TaskKey(taskId: int): string {
    "task:" + Decimal(taskId)
  }

  function UserTasksKey(userId: int): string {
    "tasks:user:" + Decimal(userId)
  }

  function Print(k: Key): string {
    match k
    case Limiter(u) => UserRateLimiterKey(u)
    case Task(id) => TaskKey(id)
    case UserTasks(u) => UserTasksKey(u)
  }

  /** No two keys, of one family or of different families, are the same string. */
  lemma KeysNeverCollide(j: Key, k: Key)
    requires Print(j) == Print(k)
    ensures j == k
  {
    assert k.Limiter? <==> Print(k)[0] == 'r';
    assert j.Limiter? <==> Print(j)[0] == 'r';
    assert k.Task? ==> Print(k)[4] == ':';
    assert j.Task? ==> Print(j)[4] == ':';
    assert k.UserTasks? ==> Print(k)[4] == 's';
    assert j.UserTasks? ==> Print(j)[4] == 's';
    match (j, k)
    case (Limiter(u), Limiter(v)) =>
      assert Print(j)[18..] == Decimal(u) && Print(k)[18..] == Decimal(v);
      DecimalIsInjective(u, v);
    case (Task(u), Task(v)) =>
      assert Print(j)[5..] == Decimal(u) && Print(k)[5..] == Decimal(v);
      DecimalIsInjective(u, v);
    case (UserTasks(u), UserTasks(v)) =>
      assert Print(j)[11..] == Decimal(u) && Print(k)[11..] == Decimal(v);
      DecimalIsInjective(u, v);
    case (_, _) =>
  }

  lemma DecimalsAreWritten()
    ensures Decimal(0) == "0" && Decimal(907) == "907" && Decimal(-12) == "-12"
  {
    assert Digits(9) == "9" && Digits(90) == "90" && Digits(907) == "907";
    assert Digits(1) == "1" && Digits(12) == "12";
  }

  /** The keys, character by character. */
  lemma KeysAreWritten()
    ensures UserRateLimiterKey(907) == "rate_limiter:user:907"
    ensures TaskKey(907) == "task:907" && UserTasksKey(907) == "tasks:user:907"
  {
    DecimalsAreWritten();
    assert "rate_limiter:user:" + "907" == "rate_limiter:user:907";
    assert "task:" + "907" == "task:907";
    assert "tasks:user:" + "907" == "tasks:user:907";
  }
}
