# kotlinstudy in Dafny

A model of the sequential helpers of the `kotlinstudy` Kotlin tutorial, one
Dafny module per Kotlin file, with the properties those helpers promise
proved about them.

- `KotlinCore` (`kotlin_core.dfy`): what the files share from Kotlin itself.
  It holds the 32-bit `Int` as the subset type `Int32`, with `Wrap` reducing
  an overflowing result modulo 2^32 into the signed range. It also holds
  nullable types `T?` as `Nullable<T>` and thrown exceptions as the `Outcome`
  datatype.
- `BasicSyntax` (`src/main/kotlinstudy/01_BasicSyntax.kt`): `add`, `square`,
  `addExclamation`, `multiplyBy`, `Int.times(String)` and the two `when`
  classifiers of `main`.
- `ClassesAndObjects` (`src/main/kotlin/study/02_ClassesAndObjects.kt`):
  - the class `Person` with its mutable `age` and derived `isAdult`;
  - the data class `User`, its companion factory `createUser` and `copy`;
  - the counter object `MySingleton`;
  - the enum `HttpStatus`;
  - the sealed class `Result` and `handleResult`.
- `FunctionalProgramming` (`src/main/kotlin/study/03_FunctionalProgramming.kt`):
  - the loops `myFilter` and `myMap`, as methods proved against the
    specification functions `Filter` and `Map`. A Kotlin `List` is a `seq`
    value here, so the receiver cannot change and each result is a new list;
  - `double`, `getMultiplier`, `processNumbers`, `add`/`curryAdd` and `compose`.
- `NullSafety` (`src/main/kotlinstudy/04_NullSafety.kt`):
  - `findUser`, `findUserByName`, `isNullOrShort` and `processInput`;
  - the `lateinit` holder `LateInitExample`, as a class whose field is
    `Null` until `initializeName` sets it.
- `Chap3` (`src/main/kotlin/chap3/Main.kt`): `renamePackage` and the
  array loop `sumTest`.

Kotlin `Int` arithmetic wraps. Every `+` and `*` on `Int` in the model goes
through `Wrap`, and each contract states the true result where it fits and
the congruence modulo 2^32 otherwise. The three unrelated `User` classes
stay in their own modules.

Printed output is modelled only where the printed text is the behaviour.
`handleResult`, `processInput` and the `when` of `main` return the line
they would print. `sumTest` returns the two values it prints.

## Model

| member | source | states |
|---|---|---|
| `BasicSyntax.Add` | src/main/kotlinstudy/01_BasicSyntax.kt:134-136 | `add(a, b)` is `a + b` when the sum fits in an `Int`, and congruent to it modulo 2^32 otherwise |
| `BasicSyntax.AddCommutes` | src/main/kotlinstudy/01_BasicSyntax.kt:96 | `add` is commutative, so the named-argument call `add(b = 10, a = 5)` is 15 |
| `BasicSyntax.Square` | src/main/kotlinstudy/01_BasicSyntax.kt:144 | `square(x)` is `x * x` and non-negative when the product fits; congruent modulo 2^32 otherwise |
| `BasicSyntax.SquareOverflowIsNegative` | src/main/kotlinstudy/01_BasicSyntax.kt:144 | without the fit condition a square can be negative: `square(46341)` is -2147479015 |
| `BasicSyntax.AddExclamation` | src/main/kotlinstudy/01_BasicSyntax.kt:147-149 | the result is one longer, has `s` as its prefix and `'!'` as its last character |
| `BasicSyntax.MultiplyBy` | src/main/kotlinstudy/01_BasicSyntax.kt:152 | `a multiplyBy b` is `a * b` when it fits, congruent modulo 2^32 otherwise |
| `BasicSyntax.Repeat` | src/main/kotlinstudy/01_BasicSyntax.kt:155 | `String.repeat` for a non-negative count; `RepeatLength` and `RepeatAt` state its length and every character |
| `BasicSyntax.RepeatLength` | src/main/kotlinstudy/01_BasicSyntax.kt:155 | `str` repeated `n` times has `n` times the length of `str` |
| `BasicSyntax.RepeatAt` | src/main/kotlinstudy/01_BasicSyntax.kt:155 | character `i` of the repetition is character `i` modulo the length of `str` of `str` |
| `BasicSyntax.Times` | src/main/kotlinstudy/01_BasicSyntax.kt:155 | `n * str` throws `IllegalArgumentException` iff `n < 0`; otherwise it is `str` repeated `n` times, `n` times as long as `str` |
| `BasicSyntax.Magnitude` | src/main/kotlinstudy/01_BasicSyntax.kt:45-50 | negative, zero, 1..9 and 10 and above each get their own label, in both directions |
| `BasicSyntax.ValueBranch` | src/main/kotlinstudy/01_BasicSyntax.kt:53-58 | with first-match order, the branches are {0,1}, 2..10, below 0 or 11..19 or above 100, and 20..100; each label iff its set |
| `Chap3.LastIndexOf` | src/main/kotlin/chap3/Main.kt:5 | the result is -1 iff the character is absent; otherwise the index holds it and nothing after it does |
| `Chap3.RenamePackage` | src/main/kotlin/chap3/Main.kt:4-8 | with no `.`, the result is `newName`; with a `.`, it is the strictly shorter prefix of `fullname` that ends just before its last `.` |
| `Chap3.RenamePackageIgnoresNewName` | src/main/kotlin/chap3/Main.kt:6-7 | when `fullname` has a `.`, the result does not depend on `newName` |
| `Chap3.RenamePackageExample` | src/main/kotlin/chap3/Main.kt:23 | `renamePackage("foo.bar.old", "new")` is `"foo.bar"` |
| `Chap3.SumOfSquares` | src/main/kotlin/chap3/Main.kt:11-16 | six times the sum of the first `n` squares is `(n-1) n (2n-1)` |
| `Chap3.SumTest` | src/main/kotlin/chap3/Main.kt:10-19 | the array has length 10 with `a[i] == i*i`; the loop's sum is the sum of the array, 285; the last element is 81 |
| `FunctionalProgramming.MyFilter` | src/main/kotlin/study/03_FunctionalProgramming.kt:193-201 | the loop builds exactly `Filter(xs, test)` |
| `FunctionalProgramming.MyMap` | src/main/kotlin/study/03_FunctionalProgramming.kt:203-209 | the loop builds a list of the same length with `result[i] == transform(xs[i])` |
| `FunctionalProgramming.FilterIsOrderedSelection` | src/main/kotlin/study/03_FunctionalProgramming.kt:193-201 | the filter is `xs` read at a strictly ascending list of indices, and an index is in that list iff its element passes the test |
| `FunctionalProgramming.FilterBounds` | src/main/kotlin/study/03_FunctionalProgramming.kt:193-201 | the filter is no longer than its input and every kept element passes the test |
| `FunctionalProgramming.FilterCounts` | src/main/kotlin/study/03_FunctionalProgramming.kt:193-201 | each value occurs in the filter as often as in the input if it passes the test, and not at all otherwise |
| `FunctionalProgramming.FilterAllTrue` | src/main/kotlin/study/03_FunctionalProgramming.kt:193-201 | a test that every element passes returns an equal list |
| `FunctionalProgramming.FilterSnoc` | src/main/kotlin/study/03_FunctionalProgramming.kt:195-199 | one more loop step appends the next element exactly when it passes the test |
| `FunctionalProgramming.Double` | src/main/kotlin/study/03_FunctionalProgramming.kt:168 | `double(x)` is `2x` when it fits, congruent modulo 2^32 otherwise |
| `FunctionalProgramming.GetMultiplier` | src/main/kotlin/study/03_FunctionalProgramming.kt:171-173 | the closure maps `x` to `x * factor` when that fits and to a value congruent modulo 2^32 otherwise; `GetMultiplierMultiplies` adds the link to `double` and the value 15 |
| `FunctionalProgramming.GetMultiplierMultiplies` | src/main/kotlin/study/03_FunctionalProgramming.kt:171-173 | `getMultiplier(k)(x)` is `x * k` when it fits; `getMultiplier(2)` agrees with `double`; `getMultiplier(3)(5)` is 15 |
| `FunctionalProgramming.ProcessNumbers` | src/main/kotlin/study/03_FunctionalProgramming.kt:176-182 | the result is no longer than the input; `ProcessNumbersSelects` states which numbers it keeps and in what order |
| `FunctionalProgramming.ProcessNumbersSelects` | src/main/kotlin/study/03_FunctionalProgramming.kt:176-182 | the result is no longer than the input and is the transform of the numbers at a strictly ascending list of indices, which holds an index iff its number passes the test |
| `FunctionalProgramming.FilterThenMap` | src/main/kotlin/study/03_FunctionalProgramming.kt:96 | `myFilter` followed by `myMap` gives the same list as `processNumbers` |
| `FunctionalProgramming.ProcessNumbersExample` | src/main/kotlin/study/03_FunctionalProgramming.kt:96 | on 1..10, keeping numbers above 5 and doubling gives `[12, 14, 16, 18, 20]` |
| `FunctionalProgramming.Add` | src/main/kotlin/study/03_FunctionalProgramming.kt:251 | `add(a, b, c)` is `a + b + c` when it fits and congruent modulo 2^32 otherwise, although each `+` wraps on its own |
| `FunctionalProgramming.CurryAdd` | src/main/kotlin/study/03_FunctionalProgramming.kt:253 | applied to `b` and then `c`, the curried closure gives `a + b + c` when it fits; `CurryAddAgrees` proves it equals `add(a, b, c)` on every input |
| `FunctionalProgramming.CurryAddAgrees` | src/main/kotlin/study/03_FunctionalProgramming.kt:253 | `curryAdd(a)(b)(c) == add(a, b, c)`, which is `a + b + c` when it fits |
| `FunctionalProgramming.Compose` | src/main/kotlin/study/03_FunctionalProgramming.kt:256-258 | the composed closure; its contract is `ComposeLaws`: `g` is applied first, composition is associative and has the identity as unit |
| `FunctionalProgramming.ComposeLaws` | src/main/kotlin/study/03_FunctionalProgramming.kt:256-258 | `compose(g, h)(x) == g(h(x))`; composition is associative and has the identity as unit |
| `NullSafety.FindUser` | src/main/kotlinstudy/04_NullSafety.kt:130-136 | non-null iff the e-mail is `alice@example.com`; that user is Alice, with that e-mail and city New York |
| `NullSafety.Find` | src/main/kotlinstudy/04_NullSafety.kt:208 | null iff no element passes the test; otherwise the result is the element at the first passing index |
| `NullSafety.FindUserByName` | src/main/kotlinstudy/04_NullSafety.kt:202-209 | non-null iff the name is Alice or Bob; the user has that name, the matching e-mail and no address |
| `NullSafety.IsNullOrShort` | src/main/kotlinstudy/04_NullSafety.kt:212-215 | true for null whatever the bound; for a string, true iff its length is at most the bound |
| `NullSafety.IsNullOrShortMonotone` | src/main/kotlinstudy/04_NullSafety.kt:212-215 | raising the bound keeps a short string short; no string is short for a negative bound |
| `NullSafety.Elvis` | src/main/kotlinstudy/04_NullSafety.kt:190 | `input ?: default` is the default for null and the value otherwise |
| `NullSafety.ElvisDefaultsOnlyForNull` | src/main/kotlinstudy/04_NullSafety.kt:190 | for every input other than the string "기본값" itself, the defaulted value is "기본값" iff the input is null |
| `NullSafety.ElvisDefaultIsAmbiguous` | src/main/kotlinstudy/04_NullSafety.kt:190 | the non-null input "기본값" defaults to the same value as null |
| `NullSafety.ClassifyInput` | src/main/kotlinstudy/04_NullSafety.kt:194-198 | the `when` puts every input in exactly one of null, `""` and other, and the other case keeps the text |
| `NullSafety.ProcessInput` | src/main/kotlinstudy/04_NullSafety.kt:181-199 | the three printed lines; `ProcessInputBranchesAgree` states how they relate on every input |
| `NullSafety.ProcessInputBranchesAgree` | src/main/kotlinstudy/04_NullSafety.kt:181-199 | the if-else line and the `when` line agree on every input but `""`, where only the `when` reports an empty input; the elvis line shows the default iff the input is null, for every input but "기본값" itself |
| `NullSafety.LateInitExample.constructor` | src/main/kotlinstudy/04_NullSafety.kt:147-149 | a new holder has no name |
| `NullSafety.LateInitExample.InitializeName` | src/main/kotlinstudy/04_NullSafety.kt:151-153 | the name becomes the argument, replacing any earlier one |
| `NullSafety.LateInitExample.AccessName` | src/main/kotlinstudy/04_NullSafety.kt:155-162 | returns the name iff it is set; otherwise throws `UninitializedPropertyAccessException` with the source's message |
| `NullSafety.LateInitScenario` | src/main/kotlinstudy/04_NullSafety.kt:113-122 | as in `main`, reading before initialisation throws and after `initializeName` the read returns the name; a second `initializeName`, which `main` does not make, overwrites it |
| `ClassesAndObjects.Person.constructor` | src/main/kotlin/study/02_ClassesAndObjects.kt:52-55 | the primary constructor stores the name and the age |
| `ClassesAndObjects.Person.OfName` | src/main/kotlin/study/02_ClassesAndObjects.kt:62-64 | the secondary constructor gives age 0, so the person is not adult |
| `ClassesAndObjects.Person.IsAdult` | src/main/kotlin/study/02_ClassesAndObjects.kt:67-68 | the getter reads the current age; `OfName`, `SetAge` and `SetIsAdult` state its value after each change |
| `ClassesAndObjects.Person.SetAge` | src/main/kotlin/study/02_ClassesAndObjects.kt:54 | after assigning `age`, `isAdult` holds iff the new age is at least 18 |
| `ClassesAndObjects.Person.SetIsAdult` | src/main/kotlin/study/02_ClassesAndObjects.kt:67-71 | assigning `isAdult` changes neither `age` nor `isAdult` |
| `ClassesAndObjects.PersonScenario` | src/main/kotlin/study/02_ClassesAndObjects.kt:11-13 | `main`'s John, 30, set to 31, is adult before and after; an assignment `isAdult = false`, which `main` does not make, leaves them adult |
| `ClassesAndObjects.CreateUser` | src/main/kotlin/study/02_ClassesAndObjects.kt:86-92 | the user has the given name and `DEFAULT_AGE`, 18 |
| `ClassesAndObjects.CopyWithAge` | src/main/kotlin/study/02_ClassesAndObjects.kt:23 | `copy(age = a)` keeps the name and sets only the age |
| `ClassesAndObjects.UserEqualityAndCopy` | src/main/kotlin/study/02_ClassesAndObjects.kt:15-24 | users are equal iff their fields are; copying with the same age is the identity; a later copy overrides an earlier one |
| `ClassesAndObjects.MySingleton.constructor` | src/main/kotlin/study/02_ClassesAndObjects.kt:98-100 | `count` starts at 0 |
| `ClassesAndObjects.MySingleton.IncrementCount` | src/main/kotlin/study/02_ClassesAndObjects.kt:102-104 | `count` goes up by exactly 1, wrapping only at `Int.MAX_VALUE`; it always equals the number of calls modulo 2^32 |
| `ClassesAndObjects.SingletonScenario` | src/main/kotlin/study/02_ClassesAndObjects.kt:31-33 | `main` prints 0, then 1 after one increment |
| `ClassesAndObjects.HttpStatus.IsSuccess` | src/main/kotlin/study/02_ClassesAndObjects.kt:223 | `code < 400`; `IsSuccessOnlyForOk` proves it holds for OK only |
| `ClassesAndObjects.IsSuccessOnlyForOk` | src/main/kotlin/study/02_ClassesAndObjects.kt:218-224 | `isSuccess` holds for OK only, not for NOT_FOUND or INTERNAL_SERVER_ERROR; no two statuses share a code |
| `ClassesAndObjects.HandleResult` | src/main/kotlin/study/02_ClassesAndObjects.kt:203-210 | the line the exhaustive `when` prints; `HandleResultInjective` states its prefixes and that different results print different lines |
| `ClassesAndObjects.HandleResultInjective` | src/main/kotlin/study/02_ClassesAndObjects.kt:197-210 | the `when` covers all three cases; success and error lines carry their own prefix, and different results print different lines |

## Left out

- Coroutines, channels and flows (`05_Coroutines.kt`, `05_Coroutines_Advanced.kt`, `src/main/kotlin/Main.kt`, `Test.kt`): they depend on the scheduler and the clock and only call kotlinx.coroutines, which is not part of this model.
- `06_Extensions.kt`: every line is commented out, so nothing in it is compiled.
- Floating point: `Circle.area`/`perimeter`, `.average()` and the Float and Double literals.
- Console output, the wall clock and randomness: `println` where its text is not the behaviour, `measureTime`, `JavaInterop.getString` (`Math.random`), `LazyExample` (`Thread.sleep`, `by lazy`).
- Demos of language mechanics only: scope functions, `Animal`/`Dog`, `Person2`/`Employee`, nested and inner classes, `introduceYourself`, the `groupBy` and `zipWithNext` lines of `main`, the safe-call, `!!` and `as?` demos.
- The `User(name, age, skills)` data class of `03_FunctionalProgramming.kt`: it is only used by the pipeline of `main` that averages ages (floating point) and groups them.
- `MySingleton.IncrementCount`: Kotlin's `private set` is not modelled; Dafny cannot hide the field from other code, and the model only updates it in `IncrementCount`.
- `MySingleton.constructor`: Kotlin's `object` is a single global instance; the model allocates one counter per scenario.
- `BasicSyntax.Times`: the length `n * |str|` can exceed what a JVM string can hold; that failure is not modelled.
- `Chap3.SumTest`: the array and the sum are `int` rather than wrapped `Int32`; every value involved is at most 285, so no wrap-around can occur.
- `Chap3.LastIndexOf`: a Kotlin `String` is a sequence of UTF-16 code units, and `lastIndexOf` returns a code-unit index; the model's strings are sequences of Unicode scalar values, so the index differs for strings holding characters outside the Basic Multilingual Plane (`"😀.x".lastIndexOf(".")` is 2 in Kotlin and 1 here). Kotlin's `lastIndexOf(".")` searches for a one-character string; the model searches for the character `'.'`, which is the same thing.
- `NullSafety.IsNullOrShort`: the length is counted in Unicode scalar values, not in Kotlin's UTF-16 code units, so the result differs for strings holding characters outside the Basic Multilingual Plane (`"😀".isNullOrShort(1)` is false in Kotlin and true here). `Chap3.RenamePackage`, `BasicSyntax.AddExclamation` and `BasicSyntax.Times` return the same strings under either measure.
- `FunctionalProgramming.MyFilter`: the test and transform are total functions without side effects; a Kotlin lambda that prints or throws is not modelled.
- The statement that the defaulted value of `processInput` is "기본값" iff the input is null is false for the non-null input "기본값"; `NullSafety.ElvisDefaultsOnlyForNull` proves it with that one input excluded, and `NullSafety.ElvisDefaultIsAmbiguous` shows the exception.
