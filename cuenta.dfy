/** The account class: an owner name and an exact decimal balance, both
    updated in place. */
module Models {
  import opened Decimals
  import opened Text

  /** Outcome of the guarded debit: done, or refused for lack of funds. */
  datatype DebitOutcome = Debited | DineroInsuficiente(message: string)

  /** The message the insufficient-funds failure carries. */
  const MensajeDineroInsuficiente: string := "Dinero Insuficiente"

  class Cuenta {
    var persona: string
    var saldo: Decimal

    /** Stores the balance as given and the owner name upper-cased. */
    constructor (persona: string, saldo: Decimal)
      ensures this.persona == ToUpper(persona)
      ensures this.saldo == saldo
      ensures IsUpperCase(this.persona)
    {
      this.saldo := saldo;
      this.persona := ToUpper(persona);
      ToUpperIsUpperCase(persona);
    }

    function GetPersona(): (r: string)
      reads this
      ensures r == persona
    {
      persona
    }

    /** Overwrites the name as given; unlike the constructor it does not upper-case. */
    method SetPersona(persona: string)
      modifies this`persona
      ensures this.persona == persona
      ensures saldo == old(saldo)
    {
      this.persona := persona;
    }

    function GetSaldo(): (r: Decimal)
      reads this
      ensures r == saldo
    {
      saldo
    }

    method SetSaldo(saldo: Decimal)
      modifies this`saldo
      ensures this.saldo == saldo
      ensures persona == old(persona)
    {
      this.saldo := saldo;
    }

    /** Value equality: the same object, or the same name and the same balance
        under BigDecimal.equals (value and scale). */
    function Equals(other: Cuenta): (r: bool)
      reads this, other
      ensures r <==> persona == other.persona && saldo == other.saldo
    {
      this == other || (GetPersona() == other.GetPersona() && GetSaldo() == other.GetSaldo())
    }

    /** Subtracts monto from the balance, with no check that funds suffice. */
    method Debito(monto: Decimal)
      modifies this`saldo
      ensures saldo == Subtract(old(saldo), monto)
      ensures Value(saldo) == Value(old(saldo)) - Value(monto)
      ensures persona == old(persona)
    {
      saldo := Subtract(saldo, monto);
    }

    /** Adds monto to the balance. */
    method Credito(monto: Decimal)
      modifies this`saldo
      ensures saldo == Add(old(saldo), monto)
      ensures Value(saldo) == Value(old(saldo)) + Value(monto)
      ensures persona == old(persona)
    {
      saldo := Add(saldo, monto);
    }

    /** The debit the tests expect: refused, leaving the balance as it was,
        when the new balance would be below zero. */
    method DebitoConFondos(monto: Decimal) returns (r: DebitOutcome)
      modifies this`saldo
      ensures r == Debited <==> Value(monto) <= Value(old(saldo))
      ensures r == Debited ==> saldo == Subtract(old(saldo), monto) && Value(saldo) >= 0.0
      ensures r != Debited ==> r == DineroInsuficiente(MensajeDineroInsuficiente) && saldo == old(saldo)
      ensures persona == old(persona)
    {
      var nuevo := Subtract(saldo, monto);
      assert Value(Zero) == 0.0;
      assert Value(nuevo) < 0.0 <==> Value(saldo) < Value(monto);
      if Compare(nuevo, Zero) < 0 {
        r := DineroInsuficiente(MensajeDineroInsuficiente);
      } else {
        saldo := nuevo;
        r := Debited;
      }
    }
  }

  /** Equals is reflexive. */
  lemma EqualsReflexive(c: Cuenta)
    ensures c.Equals(c)
  {
  }

  /** Equals is symmetric. */
  lemma EqualsSymmetric(c: Cuenta, d: Cuenta)
    ensures c.Equals(d) == d.Equals(c)
  {
  }

  /** Equals is transitive. */
  lemma EqualsTransitive(c: Cuenta, d: Cuenta, e: Cuenta)
    requires c.Equals(d) && d.Equals(e)
    ensures c.Equals(e)
  {
  }

  /** Debits monto from origen and then credits it to destino: the sum of the
      two balances keeps its value, also when both are the same account. */
  method DebitoThenCredito(origen: Cuenta, destino: Cuenta, monto: Decimal)
    modifies origen`saldo, destino`saldo
    ensures Value(origen.saldo) + Value(destino.saldo) == Value(old(origen.saldo)) + Value(old(destino.saldo))
    ensures origen != destino ==> origen.saldo == Subtract(old(origen.saldo), monto)
    ensures origen != destino ==> destino.saldo == Add(old(destino.saldo), monto)
    ensures origen == destino ==> Compare(origen.saldo, old(origen.saldo)) == 0
  {
    origen.Debito(monto);
    destino.Credito(monto);
  }

  /** The same move with the guarded debit: when the debit is refused, neither
      balance changes and nothing is credited. */
  method DebitoConFondosThenCredito(origen: Cuenta, destino: Cuenta, monto: Decimal) returns (r: DebitOutcome)
    modifies origen`saldo, destino`saldo
    ensures r == Debited <==> Value(monto) <= Value(old(origen.saldo))
    ensures r == Debited ==> Value(origen.saldo) + Value(destino.saldo) == Value(old(origen.saldo)) + Value(old(destino.saldo))
    ensures r == Debited && origen != destino ==> origen.saldo == Subtract(old(origen.saldo), monto) && Value(origen.saldo) >= 0.0
    ensures r == Debited && origen != destino ==> destino.saldo == Add(old(destino.saldo), monto)
    ensures r != Debited ==> r == DineroInsuficiente(MensajeDineroInsuficiente)
    ensures r != Debited ==> origen.saldo == old(origen.saldo) && destino.saldo == old(destino.saldo)
  {
    r := origen.DebitoConFondos(monto);
    if r == Debited {
      destino.Credito(monto);
    }
  }

  /** Crediting monto and then debiting it restores the balance's value; the
      balance is the identical BigDecimal exactly when monto's scale does not
      exceed the balance's. */
  method CreditoThenDebito(c: Cuenta, monto: Decimal)
    modifies c`saldo
    ensures c.saldo == Subtract(Add(old(c.saldo), monto), monto)
    ensures Compare(c.saldo, old(c.saldo)) == 0
    ensures c.saldo.scale == Max(old(c.saldo).scale, monto.scale)
    ensures c.saldo == old(c.saldo) <==> monto.scale <= old(c.saldo).scale
    ensures c.persona == old(c.persona)
  {
    AddThenSubtract(c.saldo, monto);
    c.Credito(monto);
    c.Debito(monto);
  }
}
