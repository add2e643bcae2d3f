/**
 * The null-safety study file: the user lookups `findUser` and
 * `findUserByName`, the extension `String?.isNullOrShort`, the three ways
 * `processInput` treats a nullable argument, and the `lateinit` holder
 * `LateInitExample`.
 */
module NullSafety {
  import opened KotlinCore

  datatype Address = Address(street: string, city: string, zipCode: string)

  /** This file's `User`: a name, an e-mail address and an optional postal address. */
  datatype User = User(name: string, email: string, address: Nullable<Address>)

  /** `findUser(email)`: a user for the one known address, `null` for every other. */
  function FindUser(email: string): (r: Nullable<User>)
    ensures r.Value? <==> email == "alice@example.com"
    ensures r.Value? ==>
      && r.get.name == "Alice"
      && r.get.email == email
      && r.get.address.Value?
      && r.get.address.get.city == "New York"
  {
    if email == "alice@example.com" then
      Value(User("Alice", email, Value(Address("123 Main St", "New York", "10001"))))
    else
      Null
  }

  /** `xs.find(p)`: the first element of `xs` that satisfies `p`, or `null`. */
  function Find<T(==)>(xs: seq<T>, p: T -> bool): (r: Nullable<T>)
    ensures r.Null? <==> forall i :: 0 <= i < |xs| ==> !p(xs[i])
    ensures r.Value? ==>
      exists i :: 0 <= i < |xs| && xs[i] == r.get && p(xs[i]) && (forall j :: 0 <= j < i ==> !p(xs[j]))
  {
    if xs == [] then Null
    else if p(xs[0]) then Value(xs[0])
    else
      var r := Find(xs[1..], p);
      assert forall j :: 1 <= j < |xs| ==> xs[j] == xs[1..][j - 1];
      if r.Value? then
        var i :| 0 <= i < |xs[1..]| && xs[1..][i] == r.get && p(xs[1..][i]) &&
          (forall j :: 0 <= j < i ==> !p(xs[1..][j]));
        assert xs[i + 1] == r.get;
        r
      else
        r
  }

  /** The fixed list that `findUserByName` searches. */
  const KnownUsers: seq<User> := [
    User("Alice", "alice@example.com", Null),
    User("Bob", "bob@example.com", Null)
  ]

  /**
   * `findUserByName(name)`: the first user of the fixed Alice/Bob list with
   * that name, or `null`; neither has an address.
   */
  function FindUserByName(name: string): (r: Nullable<User>)
    ensures r.Value? <==> name == "Alice" || name == "Bob"
    ensures r.Value? ==> r.get.name == name && r.get.address.Null?
    ensures r.Value? ==> r.get.email == if name == "Alice" then "alice@example.com" else "bob@example.com"
  {
    var r := Find(KnownUsers, (u: User) => u.name == name);
    assert r.Value? ==> r.get in KnownUsers;
    r
  }

  /** `s.isNullOrShort(maxLength)`: `null`, or no longer than `maxLength`. */
  function IsNullOrShort(s: Nullable<string>, maxLength: Int32): (r: bool)
    ensures s.Null? ==> r
    ensures s.Value? ==> (r <==> |s.get| <= maxLength)
  {
    s == Null || |s.get| <= maxLength
  }

  /** A string that is short for some bound stays short for every larger bound; none is short for a negative one. */
  lemma IsNullOrShortMonotone(s: Nullable<string>, k: Int32, m: Int32)
    requires k <= m
    ensures IsNullOrShort(s, k) ==> IsNullOrShort(s, m)
    ensures s.Value? && k < 0 ==> !IsNullOrShort(s, k)
  {
  }

  /** The default of `input ?: "기본값"` in `processInput`. */
  const DefaultInput: string := "기본값"

  /** `input ?: default`: the value when there is one, the default for `null`. */
  function Elvis(input: Nullable<string>, default: string): (r: string)
    ensures input.Null? ==> r == default
    ensures input.Value? ==> r == input.get
  {
    match input
    case Null => default
    case Value(s) => s
  }

  /**
   * The defaulted input is "기본값" exactly when the input is `null`, as long
   * as the input is not itself the string "기본값".
   */
  lemma ElvisDefaultsOnlyForNull(input: Nullable<string>)
    requires input != Value(DefaultInput)
    ensures Elvis(input, DefaultInput) == DefaultInput <==> input.Null?
  {
  }

  /** Without that proviso the "exactly when" fails: the non-null input "기본값" also yields "기본값". */
  lemma ElvisDefaultIsAmbiguous()
    ensures Elvis(Value(DefaultInput), DefaultInput) == Elvis(Null, DefaultInput)
  {
  }

  /** How the `when (input)` of `processInput` classifies its argument. */
  datatype InputKind = Missing | Blank | Given(text: string)

  function ClassifyInput(input: Nullable<string>): (k: InputKind)
    ensures k == Missing <==> input.Null?
    ensures k == Blank <==> input == Value("")
    ensures k.Given? <==> input.Value? && input.get != ""
    ensures k.Given? ==> k.text == input.get
  {
    match input
    case Null => Missing
    case Value(s) => if s == "" then Blank else Given(s)
  }

  /**
   * `processInput(input)`: the three lines it prints, from the if-else, from
   * the elvis operator, and from the `when`.
   */
  function ProcessInput(input: Nullable<string>): (lines: seq<string>)
  {
    [ if input.Value? then "입력값: " + input.get else "입력값이 없습니다.",
      "처리된 입력값: " + Elvis(input, DefaultInput),
      match ClassifyInput(input)
      case Missing => "입력값이 없습니다."
      case Blank => "입력값이 비어있습니다."
      case Given(s) => "입력값: " + s ]
  }

  /**
   * The if-else and the `when` of `processInput` agree except on the empty
   * string, which only the `when` reports as empty.
   */
  lemma ProcessInputBranchesAgree(input: Nullable<string>)
    ensures |ProcessInput(input)| == 3
    ensures input != Value("") ==> ProcessInput(input)[0] == ProcessInput(input)[2]
    ensures input == Value("") ==>
      ProcessInput(input)[0] == "입력값: " && ProcessInput(input)[2] == "입력값이 비어있습니다."
    ensures input != Value(DefaultInput) ==>
      (input.Null? <==> ProcessInput(input)[1] == "처리된 입력값: " + DefaultInput)
  {
    var prefix := "처리된 입력값: ";
    if input.Value? {
      assert (prefix + input.get)[|prefix|..] == input.get;
      assert (prefix + DefaultInput)[|prefix|..] == DefaultInput;
    }
  }

  /** A holder whose `lateinit var name` has no value until `initializeName` is called. */
  class LateInitExample {
    var name: Nullable<string>

    constructor ()
      ensures name.Null?
    {
      name := Null;
    }

    /** `initializeName(newName)`: sets the name, replacing any earlier one. */
    method InitializeName(newName: string)
      modifies this
      ensures name == Value(newName)
    {
      name := Value(newName);
    }

    /** `accessName()`: the name once set; before that, `UninitializedPropertyAccessException`. */
    method AccessName() returns (r: Outcome<string>)
      ensures name.Value? <==> r.Returned?
      ensures name.Value? ==> r.value == name.get
      ensures name.Null? ==> r == Thrown(UninitializedPropertyAccess("name이 초기화되지 않았습니다."))
    {
      if name.Value? {
        r := Returned(name.get);
      } else {
        r := Thrown(UninitializedPropertyAccess("name이 초기화되지 않았습니다."));
      }
    }
  }

  /**
   * The section of `main` that uses `LateInitExample` reads the name before
   * initialising it, which throws, then calls `initializeName` once and reads
   * the new name back. This scenario adds a second `initializeName` and read,
   * which `main` does not make: the second name replaces the first.
   */
  method LateInitScenario(first: string, second: string) returns (before: Outcome<string>, after: Outcome<string>, again: Outcome<string>)
    ensures before.Thrown? && before.exception.UninitializedPropertyAccess?
    ensures after == Returned(first)
    ensures again == Returned(second)
  {
    var holder := new LateInitExample();
    before := holder.AccessName();
    holder.InitializeName(first);
    after := holder.AccessName();
    holder.InitializeName(second);
    again := holder.AccessName();
  }
}
