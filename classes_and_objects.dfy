/**
 * The classes-and-objects study file: the class `Person` with its derived
 * property `isAdult`, the data class `User` with its companion factory and
 * `copy`, the counter object `MySingleton`, the enum `HttpStatus`, and the
 * sealed class `Result` with the exhaustive `handleResult`.
 */
module ClassesAndObjects {
  import opened KotlinCore

  /** A person: a fixed name and a mutable age. */
  class Person {
    const name: string
    var age: Int32

    /** The primary constructor `Person(name, age)`. */
    constructor (name: string, age: Int32)
      ensures this.name == name && this.age == age
    {
      this.name := name;
      this.age := age;
    }

    /** The secondary constructor `Person(name)`, which delegates with age 0. */
    constructor OfName(name: string)
      ensures this.name == name && age == 0
      ensures !IsAdult()
    {
      this.name := name;
      this.age := 0;
    }

    /** The getter of `isAdult`, computed from the current age. */
    function IsAdult(): bool
      reads this
    {
      age >= 18
    }

    /** Assigning `age`: `isAdult` follows the new age. */
    method SetAge(newAge: Int32)
      modifies this
      ensures age == newAge
      ensures IsAdult() <==> newAge >= 18
    {
      age := newAge;
    }

    /** The setter of `isAdult` only prints a refusal: nothing about the person changes. */
    method SetIsAdult(value: bool)
      ensures age == old(age) && IsAdult() == old(IsAdult())
    {
    }
  }

  /**
   * `main` creates `Person("John", 30)` and assigns it age 31. This scenario
   * adds reads of `isAdult` before and after that assignment, and an
   * assignment `isAdult = false` followed by another read, which `main` does
   * not make: the person is adult throughout.
   */
  method PersonScenario() returns (adultBefore: bool, adultAfter: bool, adultAfterSet: bool, age: Int32)
    ensures adultBefore && adultAfter && adultAfterSet && age == 31
  {
    var person := new Person("John", 30);
    adultBefore := person.IsAdult();
    person.SetAge(31);
    adultAfter := person.IsAdult();
    person.SetIsAdult(false);
    adultAfterSet := person.IsAdult();
    age := person.age;
  }

  /** This file's data class `User(name, age)`; equality compares the fields. */
  datatype User = User(name: string, age: Int32)

  /** The companion constant `DEFAULT_AGE`. */
  const DefaultAge: Int32 := 18

  /** `User.createUser(name)`: a user of that name at the default age. */
  function CreateUser(name: string): (u: User)
    ensures u.name == name && u.age == DefaultAge
  {
    User(name, DefaultAge)
  }

  /** `user.copy(age = age)`: the same user with only the age replaced. */
  function CopyWithAge(user: User, age: Int32): (u: User)
    ensures u.name == user.name && u.age == age
  {
    user.(age := age)
  }

  /**
   * Data-class equality is field equality; copying with the same age gives an
   * equal user, and a later copy overrides an earlier one.
   */
  lemma UserEqualityAndCopy(u: User, v: User, a: Int32, b: Int32)
    ensures u == v <==> u.name == v.name && u.age == v.age
    ensures CopyWithAge(u, u.age) == u
    ensures CopyWithAge(CopyWithAge(u, a), b) == CopyWithAge(u, b)
    ensures CopyWithAge(u, a) == u <==> a == u.age
  {
  }

  /**
   * The object `MySingleton`: a counter that starts at 0 and that only
   * `incrementCount` changes. The ghost `increments` counts the calls.
   */
  class MySingleton {
    var count: Int32
    ghost var increments: nat

    /** `count` is the number of increments, wrapped to an `Int`. */
    ghost predicate Valid()
      reads this
    {
      count == Wrap(increments)
    }

    constructor ()
      ensures Valid() && count == 0 && increments == 0
    {
      count := 0;
      increments := 0;
    }

    /** `incrementCount()`: `count++`, which wraps from `Int.MAX_VALUE` to `Int.MIN_VALUE`. */
    method IncrementCount()
      requires Valid()
      modifies this
      ensures Valid() && increments == old(increments) + 1
      ensures old(count) < IntMax ==> count == old(count) + 1
      ensures old(count) == IntMax ==> count == IntMin
    {
      WrapSucc(increments);
      count := WrappingAdd(count, 1);
      increments := increments + 1;
    }
  }

  /** The three lines of `main` that print `count`, increment it, and print it again. */
  method SingletonScenario() returns (first: Int32, second: Int32)
    ensures first == 0 && second == 1
  {
    var counter := new MySingleton();
    first := counter.count;
    counter.IncrementCount();
    second := counter.count;
  }

  /** The enum `HttpStatus` and its codes. */
  datatype HttpStatus = Ok | NotFound | InternalServerError {
    function Code(): Int32
    {
      match this
      case Ok => 200
      case NotFound => 404
      case InternalServerError => 500
    }

    /** `isSuccess()`: the code is below 400. */
    predicate IsSuccess()
    {
      Code() < 400
    }
  }

  /** Of the three statuses only `OK` is a success, and no two share a code. */
  lemma IsSuccessOnlyForOk(s: HttpStatus, t: HttpStatus)
    ensures s.IsSuccess() <==> s == Ok
    ensures s.Code() == t.Code() ==> s == t
  {
  }

  /** The sealed class `Result`. */
  datatype Result = Success(data: string) | Error(message: string) | Loading

  const SuccessPrefix: string := "성공: "
  const ErrorPrefix: string := "오류: "
  const LoadingLine: string := "로딩 중..."

  /** `handleResult(result)`: the line the exhaustive `when` prints for each case. */
  function HandleResult(result: Result): string
  {
    match result
    case Success(data) => SuccessPrefix + data
    case Error(message) => ErrorPrefix + message
    case Loading => LoadingLine
  }

  /**
   * Each case prints its own kind of line, and the line tells the three cases
   * apart and recovers the payload: different results print differently.
   */
  lemma HandleResultInjective(a: Result, b: Result)
    ensures a.Success? <==> HandleResult(a)[..4] == SuccessPrefix
    ensures a.Error? <==> HandleResult(a)[..4] == ErrorPrefix
    ensures HandleResult(a) == HandleResult(b) ==> a == b
  {
    assert HandleResult(a)[0] in {'성', '오', '로'};
    if HandleResult(a) == HandleResult(b) {
      var line := HandleResult(a);
      assert |SuccessPrefix| == 4 && |ErrorPrefix| == 4;
      match a
      case Success(d) =>
        assert line[0] == '성';
        assert line[4..] == d;
      case Error(m) =>
        assert line[0] == '오';
        assert line[4..] == m;
      case Loading =>
        assert line[0] == '로';
    }
  }
}
