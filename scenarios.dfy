/** Scenarios over the account model. Most replay a test case of the account
    tests: each builds the accounts the test builds and returns what the test
    asserts on. The others exercise the account class on inputs of their own. */
module CuentaScenarios {
  import opened Decimals
  import opened Text
  import opened Models

  /** new BigDecimal("1000.982") */
  const InitialSaldo: Decimal := Decimal(1000982, 3)

  /** The exact sums and differences the debit and credit tests rely on. */
  lemma TestAmounts()
    ensures Subtract(InitialSaldo, Decimal(100, 0)) == Decimal(900982, 3)
    ensures Add(InitialSaldo, Decimal(100, 0)) == Decimal(1100982, 3)
    ensures Subtract(InitialSaldo, Decimal(1100, 0)) == Decimal(-99018, 3)
    ensures IntValue(Decimal(900982, 3)) == 900
    ensures IntValue(Decimal(1100982, 3)) == 1100
  {
  }

  /** The name is stored upper-cased; "NOMBRE1" already is. */
  method TestNombreCuenta() returns (nombre: string)
    ensures nombre == "NOMBRE1"
  {
    ToUpperKeepsUpperCase("NOMBRE1");
    var cuenta := new Cuenta("NOMBRE1", InitialSaldo);
    nombre := cuenta.GetPersona();
  }

  /** A lower-case name comes back upper-cased from the constructor. */
  method TestNombreEnMinusculas() returns (nombre: string)
    ensures nombre == "NOMBRE1"
  {
    var cuenta := new Cuenta("nombre1", InitialSaldo);
    nombre := cuenta.GetPersona();
    assert nombre == ToUpper("nombre1");
    assert nombre[0] == 'N' && nombre[1] == 'O' && nombre[2] == 'M' && nombre[3] == 'B';
    assert nombre[4] == 'R' && nombre[5] == 'E' && nombre[6] == '1';
  }

  /** The balance compares greater than zero. */
  method TestSaldoCuenta() returns (comparacion: int)
    ensures comparacion > 0
  {
    var cuenta := new Cuenta("NOMBRE1", InitialSaldo);
    comparacion := Compare(cuenta.GetSaldo(), Zero);
  }

  /** Two accounts built alike are equal, though distinct objects. */
  method TestReferenciaCuenta() returns (iguales: bool, mismaInstancia: bool)
    ensures iguales && !mismaInstancia
  {
    var cuenta := new Cuenta("NOMBRE1", InitialSaldo);
    var cuenta2 := new Cuenta("NOMBRE1", InitialSaldo);
    iguales := cuenta2.Equals(cuenta);
    mismaInstancia := cuenta2 == cuenta;
  }

  /** Equality is scale-sensitive: balances 100 and 100.0 make unequal accounts. */
  method TestEscalaDistinta() returns (iguales: bool, comparacion: int)
    ensures !iguales && comparacion == 0
  {
    var cuenta := new Cuenta("NOMBRE1", Decimal(100, 0));
    var cuenta2 := new Cuenta("NOMBRE1", Decimal(1000, 1));
    EqualityIsScaleSensitive();
    iguales := cuenta.Equals(cuenta2);
    comparacion := Compare(cuenta.GetSaldo(), cuenta2.GetSaldo());
  }

  /** 1000.982 - 100 is exactly 900.982, whose int value is 900. */
  method TestDebitoCuenta() returns (saldo: Decimal, entero: int)
    ensures saldo == Decimal(900982, 3) && entero == 900
  {
    var cuenta := new Cuenta("NOMBRE1", InitialSaldo);
    TestAmounts();
    cuenta.Debito(Decimal(100, 0));
    saldo := cuenta.GetSaldo();
    entero := IntValue(saldo);
  }

  /** 1000.982 + 100 is exactly 1100.982, whose int value is 1100. */
  method TestCreditoCuenta() returns (saldo: Decimal, entero: int)
    ensures saldo == Decimal(1100982, 3) && entero == 1100
  {
    var cuenta := new Cuenta("NOMBRE1", InitialSaldo);
    TestAmounts();
    cuenta.Credito(Decimal(100, 0));
    saldo := cuenta.GetSaldo();
    entero := IntValue(saldo);
  }

  /** Debito as written takes 1100 from 1000.982 without complaint, leaving
      -99.018, where the test expects the insufficient-funds failure. */
  method TestDineroInsuficienteAsWritten() returns (saldo: Decimal)
    ensures saldo == Decimal(-99018, 3) && Compare(saldo, Zero) < 0
  {
    var cuenta := new Cuenta("NOMBRE1", InitialSaldo);
    TestAmounts();
    cuenta.Debito(Decimal(1100, 0));
    saldo := cuenta.GetSaldo();
  }

  /** The guarded debit refuses 1100 from 1000.982 with "Dinero Insuficiente"
      and leaves the balance as it was. */
  method TestDineroInsuficiente() returns (r: DebitOutcome, saldo: Decimal)
    ensures r.DineroInsuficiente? && r.message == "Dinero Insuficiente"
    ensures saldo == InitialSaldo
  {
    var cuenta := new Cuenta("NOMBRE1", InitialSaldo);
    TestAmounts();
    r := cuenta.DebitoConFondos(Decimal(1100, 0));
    saldo := cuenta.GetSaldo();
  }

  /** The amounts of the transfer test, at scale 0 throughout. */
  lemma TransferAmounts()
    ensures Subtract(Decimal(2500, 0), Decimal(500, 0)) == Decimal(2000, 0)
    ensures Add(Decimal(1000, 0), Decimal(500, 0)) == Decimal(1500, 0)
  {
  }

  /** Moving 500 from 2500 to 1000 leaves 2000 and 1500. */
  method TestRelacionBancoCuenta() returns (saldoOrigen: Decimal, saldoDestino: Decimal)
    ensures saldoOrigen == Decimal(2000, 0) && saldoDestino == Decimal(1500, 0)
  {
    TransferAmounts();
    var origen := new Cuenta("Gigio", Decimal(2500, 0));
    var destino := new Cuenta("Memo", Decimal(1000, 0));
    DebitoThenCredito(origen, destino, Decimal(500, 0));
    saldoOrigen, saldoDestino := origen.GetSaldo(), destino.GetSaldo();
  }

  /** Crediting and then debiting 0.5 on a balance of 100 gives back 100.0:
      the same value, but not an equal BigDecimal. */
  method TestCreditoDebitoEscala() returns (saldo: Decimal)
    ensures saldo == Decimal(1000, 1) && saldo != Decimal(100, 0)
  {
    var cuenta := new Cuenta("NOMBRE1", Decimal(100, 0));
    CreditoThenDebito(cuenta, Decimal(5, 1));
    saldo := cuenta.GetSaldo();
  }

  /** The accounts of the bank test store their names upper-cased, so a
      lookup by "Gigio" or "Memo" finds neither of them. */
  method TestRelacionBancoCuentaNombres() returns (nombreOrigen: string, nombreDestino: string)
    ensures nombreOrigen == "GIGIO" && nombreOrigen != "Gigio"
    ensures nombreDestino == "MEMO" && nombreDestino != "Memo"
  {
    var origen := new Cuenta("Gigio", Decimal(2500, 0));
    var destino := new Cuenta("Memo", Decimal(1000, 0));
    nombreOrigen, nombreDestino := origen.GetPersona(), destino.GetPersona();
    assert nombreOrigen[1] == 'I' && nombreOrigen[0] == 'G' && nombreOrigen[2] == 'G' && nombreOrigen[3] == 'I' && nombreOrigen[4] == 'O';
    assert nombreDestino[1] == 'E' && nombreDestino[0] == 'M' && nombreDestino[2] == 'M' && nombreDestino[3] == 'O';
  }
}
