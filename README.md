# Cuenta: a bank account with an exact decimal balance

This project models the account class `Cuenta` of a small JUnit 5 teaching
repository. An account holds an owner name (`persona`) and a balance
(`saldo`, a `java.math.BigDecimal`). The constructor upper-cases the name.
`debito` subtracts from the balance in place, `credito` adds to it, and
`equals` compares name and balance by value.

- `decimals.dfy` (module `Decimals`) models the part of `BigDecimal` the class
  and its tests use. A `Decimal` is an unscaled integer and a scale, and it
  denotes `unscaled / 10^scale`. `Add` and `Subtract` align both operands to
  the larger scale, as `BigDecimal.add` and `subtract` do, so 1000.982 - 100
  is exactly `Decimal(900982, 3)`, the number whose plain string is
  "900.982". Datatype equality is `BigDecimal.equals`, which is
  scale-sensitive: 100 and 100.0 differ. `Compare` is `compareTo`, which looks
  at the numeric `Value` only. `IntValue` is `intValue`: the integer part,
  truncated toward zero, keeping the low 32 bits.
- `text.dfy` (module `Text`) models `String.toUpperCase` on the letters a-z.
- `cuenta.dfy` (module `Models`) is the class `Cuenta`. It has the two fields
  reassigned in place, methods with `modifies` for the mutators and functions
  for the side-effect-free getters and `equals`. Beside the class are three
  client methods that compose the class's own operations (debit then credit
  on two accounts, and credit then debit on one).
- `scenarios.dfy` (module `CuentaScenarios`) holds scenarios over the model.
  Each method returns what it observes, and its `ensures` states the expected
  value. `TestNombreCuenta`, `TestSaldoCuenta`, `TestReferenciaCuenta`,
  `TestDebitoCuenta`, `TestCreditoCuenta`, `TestDineroInsuficiente`,
  `TestRelacionBancoCuenta` and `TestRelacionBancoCuentaNombres` replay test
  cases of `CuentaTest.java`. `TestNombreEnMinusculas`, `TestEscalaDistinta`,
  `TestDineroInsuficienteAsWritten` and `TestCreditoDebitoEscala` are not tests
  of the repository; they exercise `Cuenta.java` on inputs of their own.

**Debit is not guarded in the code.** The test at
`src/test/java/org/arthas/junit5app/ejemplos/models/CuentaTest.java:106-116`
expects `debito(1100)` on a balance of 1000.982 to throw
`DineroInsuficienteException` with message "Dinero Insuficiente". The `debito` in
`Cuenta.java:42-44` has no guard, so it leaves a balance of -99.018. This model
follows the code: `Models.Cuenta.Debito` is unguarded. The guarded behaviour the
test expects is a separate method, `Models.Cuenta.DebitoConFondos`. It returns
`DineroInsuficiente("Dinero Insuficiente")` and leaves the balance unchanged
when the new balance would be below zero.

## Model

| member | source | states |
|---|---|---|
| `Decimals.Add` | src/main/java/org/arthas/junit5app/ejemplos/models/Cuenta.java:46-48 | the sum the balance update uses: its scale is the larger of the two scales and its value is exactly the sum of the values |
| `Decimals.Subtract` | src/main/java/org/arthas/junit5app/ejemplos/models/Cuenta.java:42-44 | the difference the balance update uses: its scale is the larger of the two scales and its value is exactly the difference of the values |
| `Decimals.Compare` | src/test/java/org/arthas/junit5app/ejemplos/models/CuentaTest.java:67-68 | `compareTo`: the result is -1, 0 or 1 exactly when the first value is less than, equal to or greater than the second, whatever the scales |
| `Decimals.IntegerPart` | src/test/java/org/arthas/junit5app/ejemplos/models/CuentaTest.java:89 | the integer part truncated toward zero: for a non-negative number it is the largest r with r * 10^scale <= unscaled, for a negative one the mirror bound |
| `Decimals.Wrap32` | src/test/java/org/arthas/junit5app/ejemplos/models/CuentaTest.java:89 | the result is a 32-bit int congruent to the input modulo 2^32, and equal to it when the input already fits |
| `Decimals.IntValue` | src/test/java/org/arthas/junit5app/ejemplos/models/CuentaTest.java:97 | `intValue` lies in the 32-bit range, is congruent to the integer part modulo 2^32 (its low 32 bits), and is the integer part whenever that fits |
| `Decimals.SameScaleSameValue` | src/main/java/org/arthas/junit5app/ejemplos/models/Cuenta.java:38 | at one scale, two decimals are equal (as `BigDecimal.equals` sees them) exactly when their values are equal |
| `Decimals.EqualityIsScaleSensitive` | src/main/java/org/arthas/junit5app/ejemplos/models/Cuenta.java:38 | 100 and 100.0 compare equal but are not equal, so the balance comparison in `equals` depends on the scale |
| `Decimals.ZeroIsNeutral` | src/main/java/org/arthas/junit5app/ejemplos/models/Cuenta.java:42-48 | crediting or debiting zero (scale 0) leaves a balance identical, scale included |
| `Decimals.AddThenSubtract` | src/main/java/org/arthas/junit5app/ejemplos/models/Cuenta.java:42-48 | adding m and then subtracting m restores the numeric value; the scale becomes the larger of the two; the result is identical to the start exactly when m's scale does not exceed the balance's |
| `Decimals.MoveConservesSum` | src/main/java/org/arthas/junit5app/ejemplos/models/Cuenta.java:42-48 | subtracting m from one amount and adding it to another keeps the value of their sum |
| `Text.UpperChar` | src/main/java/org/arthas/junit5app/ejemplos/models/Cuenta.java:10 | a-z map to A-Z (code minus 32), every other character is kept, and no result is a lower-case letter |
| `Text.ToUpper` | src/main/java/org/arthas/junit5app/ejemplos/models/Cuenta.java:10 | the upper-cased name has the same length and each character is the upper-case form of the original's |
| `Text.ToUpperIsUpperCase` | src/main/java/org/arthas/junit5app/ejemplos/models/Cuenta.java:10 | an upper-cased name contains no lower-case letter |
| `Text.ToUpperKeepsUpperCase` | src/main/java/org/arthas/junit5app/ejemplos/models/Cuenta.java:10 | a name with no lower-case letter is unchanged by upper-casing |
| `Text.ToUpperIdempotent` | src/main/java/org/arthas/junit5app/ejemplos/models/Cuenta.java:10 | upper-casing twice is the same as once |
| `Models.Cuenta.constructor` | src/main/java/org/arthas/junit5app/ejemplos/models/Cuenta.java:8-11 | the balance is stored as given; the name is stored upper-cased and holds no lower-case letter |
| `Models.Cuenta.GetPersona` | src/main/java/org/arthas/junit5app/ejemplos/models/Cuenta.java:16-18 | returns the stored name; as a function it cannot change the account |
| `Models.Cuenta.SetPersona` | src/main/java/org/arthas/junit5app/ejemplos/models/Cuenta.java:20-22 | the name becomes the argument exactly, not upper-cased; only the name may change and the balance stays |
| `Models.Cuenta.GetSaldo` | src/main/java/org/arthas/junit5app/ejemplos/models/Cuenta.java:24-26 | returns the stored balance; as a function it cannot change the account |
| `Models.Cuenta.SetSaldo` | src/main/java/org/arthas/junit5app/ejemplos/models/Cuenta.java:28-30 | the balance becomes the argument; only the balance may change and the name stays |
| `Models.Cuenta.Equals` | src/main/java/org/arthas/junit5app/ejemplos/models/Cuenta.java:33-39 | true exactly when both names are equal and both balances are equal in value and scale; the identity shortcut agrees with this |
| `Models.Cuenta.Debito` | src/main/java/org/arthas/junit5app/ejemplos/models/Cuenta.java:42-44 | the new balance is the old balance minus the amount, with no guard; its value drops by exactly the amount; the name stays |
| `Models.Cuenta.Credito` | src/main/java/org/arthas/junit5app/ejemplos/models/Cuenta.java:46-48 | the new balance is the old balance plus the amount; its value rises by exactly the amount; the name stays |
| `Models.Cuenta.DebitoConFondos` | src/test/java/org/arthas/junit5app/ejemplos/models/CuentaTest.java:106-116 | the guarded debit the test expects: it succeeds exactly when the amount does not exceed the balance, and then the new balance is the difference and is non-negative; otherwise it returns "Dinero Insuficiente" and the balance is unchanged |
| `Models.EqualsReflexive` | src/main/java/org/arthas/junit5app/ejemplos/models/Cuenta.java:33-39 | every account equals itself |
| `Models.EqualsSymmetric` | src/main/java/org/arthas/junit5app/ejemplos/models/Cuenta.java:33-39 | `equals` gives the same answer in both directions |
| `Models.EqualsTransitive` | src/main/java/org/arthas/junit5app/ejemplos/models/Cuenta.java:33-39 | `equals` is transitive |
| `Models.DebitoThenCredito` | src/main/java/org/arthas/junit5app/ejemplos/models/Cuenta.java:42-48 | debiting one account and crediting another keeps the value of the sum of their balances; for distinct accounts each gets exactly its difference or sum; if both are the same account its value is restored |
| `Models.DebitoConFondosThenCredito` | src/main/java/org/arthas/junit5app/ejemplos/models/Cuenta.java:42-48 | with the guarded debit: on success the sum is conserved; for distinct accounts each balance is updated and the source stays non-negative; on refusal neither balance changes and the message is "Dinero Insuficiente" |
| `Models.CreditoThenDebito` | src/main/java/org/arthas/junit5app/ejemplos/models/Cuenta.java:42-48 | crediting and then debiting the same amount restores the balance's numeric value, grows its scale to the larger of the two, and restores the identical balance exactly when the amount's scale does not exceed it; the name stays |
| `CuentaScenarios.TestNombreCuenta` | src/test/java/org/arthas/junit5app/ejemplos/models/CuentaTest.java:51-58 | an account built with "NOMBRE1" reports the name "NOMBRE1" |
| `CuentaScenarios.TestNombreEnMinusculas` | src/main/java/org/arthas/junit5app/ejemplos/models/Cuenta.java:8-11 | an account built with "nombre1" reports the name "NOMBRE1" |
| `CuentaScenarios.TestSaldoCuenta` | src/test/java/org/arthas/junit5app/ejemplos/models/CuentaTest.java:62-69 | the balance 1000.982 compares greater than zero |
| `CuentaScenarios.TestReferenciaCuenta` | src/test/java/org/arthas/junit5app/ejemplos/models/CuentaTest.java:73-82 | two accounts built alike are equal though they are distinct objects |
| `CuentaScenarios.TestEscalaDistinta` | src/main/java/org/arthas/junit5app/ejemplos/models/Cuenta.java:38 | accounts with balances 100 and 100.0 are not equal, though the balances compare equal |
| `CuentaScenarios.TestDebitoCuenta` | src/test/java/org/arthas/junit5app/ejemplos/models/CuentaTest.java:85-91 | 1000.982 debited by 100 is exactly 900.982 (scale 3), with int value 900 |
| `CuentaScenarios.TestCreditoCuenta` | src/test/java/org/arthas/junit5app/ejemplos/models/CuentaTest.java:94-99 | 1000.982 credited by 100 is exactly 1100.982 (scale 3), with int value 1100 |
| `CuentaScenarios.TestDineroInsuficienteAsWritten` | src/main/java/org/arthas/junit5app/ejemplos/models/Cuenta.java:42-44 | the unguarded debit of 1100 from 1000.982 leaves -99.018, below zero, with no failure |
| `CuentaScenarios.TestDineroInsuficiente` | src/test/java/org/arthas/junit5app/ejemplos/models/CuentaTest.java:106-116 | the guarded debit of 1100 from 1000.982 fails with "Dinero Insuficiente" and the balance stays 1000.982 |
| `CuentaScenarios.TestRelacionBancoCuenta` | src/test/java/org/arthas/junit5app/ejemplos/models/CuentaTest.java:145-159 | moving 500 from 2500 to 1000 by debit then credit leaves exactly 2000 and 1500 |
| `CuentaScenarios.TestRelacionBancoCuentaNombres` | src/test/java/org/arthas/junit5app/ejemplos/models/CuentaTest.java:168-177 | accounts built with "Gigio" and "Memo" report "GIGIO" and "MEMO", so the lookups by "Gigio" and "Memo" in the test match no account |
| `CuentaScenarios.TestCreditoDebitoEscala` | src/main/java/org/arthas/junit5app/ejemplos/models/Cuenta.java:42-48 | crediting and then debiting 0.5 on a balance of 100 gives 100.0, which is not the identical balance |

**Name lookups in the bank test.** The test at
`CuentaTest.java:168-177` looks accounts up by `getPersona().equals("Gigio")`
and `"Memo"`. The constructor (`Cuenta.java:10`) stores "GIGIO" and "MEMO", so
that `findFirst().get()` would find nothing and `anyMatch` would be false.
`CuentaScenarios.TestRelacionBancoCuentaNombres` states the stored names. It is
not clear whether the test or the constructor is the intended behaviour, so
this is not listed as a finding with a corrected member; the model keeps the
constructor as written.

## Findings

| source | as written | input that shows it | evidently intended | confidence | as-written member | corrected member |
|---|---|---|---|---|---|---|
| src/main/java/org/arthas/junit5app/ejemplos/models/Cuenta.java:42-44 | `debito` subtracts with no check of the funds | balance 1000.982, `debito(1100)` gives -99.018 and no exception | fail with `DineroInsuficienteException("Dinero Insuficiente")` and leave the balance, as CuentaTest.java:106-116 asserts | not executed | `CuentaScenarios.TestDineroInsuficienteAsWritten` | `Models.Cuenta.DebitoConFondos` |

The corrected member is used by `Models.DebitoConFondosThenCredito` and
`CuentaScenarios.TestDineroInsuficiente`. `Models.Cuenta.Debito` still models
the code as written, since that is what `Cuenta.java` does.

## Left out

- `Banco` and its `addCuenta`, `transferir`, `getCuentas` and the account's back-reference `getBanco`: `Banco.java` is not part of this model. Only the debit-then-credit composition of the account's own methods is modelled (`Models.DebitoThenCredito`).
- `DineroInsuficienteException`: its source is not part of this model. The failure is the value `DineroInsuficiente(message)` returned by `Models.Cuenta.DebitoConFondos`.
- Negative `BigDecimal` scales: `Decimal.scale` is a natural number. Every balance and amount the tests build has a scale of zero or more.
- `Text.ToUpper` and `Text.UpperChar`: change only the letters a-z. Java's `toUpperCase` also maps other Unicode letters, depends on the default locale, and can change the length (for example "ß" becomes "SS").
- `toPlainString`: the string rendering is not modelled. The scenarios compare with the decimal the expected string denotes ("900.982" is `Decimal(900982, 3)`).
- `doubleValue` (CuentaTest.java:65): floating point is not modelled. The exact comparison `Compare` stands in for it.
- `equals` on `null` or on an object of another class (`Objects.equals` null handling and the `instanceof` check): Dafny references here are never null, and `Equals` only takes a `Cuenta`.
- The construction of a `Cuenta` with a null name (a `NullPointerException` from `toUpperCase`): names are never null here.
- Null balances and null names given to the constructor or to `setSaldo` and `setPersona` (after which `debito` and `credito` would throw a `NullPointerException`): `Decimal` and `string` values are never null here.
- Console printing, JUnit lifecycle hooks, and the tests gated on operating system, JRE, system properties or environment variables (CuentaTest.java:22-44, 187-258): test-harness I/O with no account logic.
