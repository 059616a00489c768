/** The elementary functions of the language tutorial
    (`python_basic_learn/temel_kavramlar/fonksiyonlar.py`). Numbers are
    exact reals here, so integer arguments behave like Python ints and
    `/` like true division. */
module BasicFunctions {
  import opened Arith

  /** `toplama`. */
  function Toplama(a: real, b: real): real
  {
    a + b
  }

  /** `cikarma`. */
  function Cikarma(a: real, b: real): real
  {
    a - b
  }

  /** `carpma`. */
  function Carpma(a: real, b: real): real
  {
    a * b
  }

  /** Subtraction undoes addition, and addition undoes subtraction. */
  lemma ToplamaCikarmaInverse(a: real, b: real)
    ensures Cikarma(Toplama(a, b), b) == a
    ensures Toplama(Cikarma(a, b), b) == a
  {
  }

  /** What `bolme` returns: a quotient, or the refusal message. */
  datatype Division = Quotient(value: real) | Message(text: string)

  /** `bolme`: the quotient, or a message instead of dividing by zero. */
  function Bolme(a: real, b: real): (r: Division)
    ensures r.Message? <==> b == 0.0
    ensures r.Message? ==> r.text == "Bir sayı sıfıra bölünemez"
    ensures r.Quotient? ==> Carpma(r.value, b) == a
  {
    if b != 0.0 then Quotient(a / b) else Message("Bir sayı sıfıra bölünemez")
  }

  /** Division undoes multiplication by a non-zero number. */
  lemma BolmeCarpmaInverse(a: real, b: real)
    requires b != 0.0
    ensures Bolme(Carpma(a, b), b) == Quotient(a)
  {
  }

  /** `faktoriyel` for the arguments on which it terminates. */
  function Faktoriyel(n: nat): (r: nat)
    ensures r >= 1
  {
    if n == 0 || n == 1 then 1 else n * Faktoriyel(n - 1)
  }

  /** `lo * (lo + 1) * … * hi`, multiplied from the bottom; 1 when empty. */
  function Product(lo: nat, hi: nat): nat
    decreases hi - lo + 1
  {
    if lo > hi then 1 else lo * Product(lo + 1, hi)
  }

  lemma {:induction false} ProductExtend(lo: nat, hi: nat)
    requires lo <= hi + 1
    ensures Product(lo, hi + 1) == Product(lo, hi) * (hi + 1)
    decreases hi - lo + 1
  {
    if lo <= hi {
      ProductExtend(lo + 1, hi);
      calc {
        Product(lo, hi + 1);
        lo * Product(lo + 1, hi + 1);
        lo * (Product(lo + 1, hi) * (hi + 1));
        (lo * Product(lo + 1, hi)) * (hi + 1);
        Product(lo, hi) * (hi + 1);
      }
    } else {
      assert Product(hi + 2, hi + 1) == 1;
    }
  }

  /** `faktoriyel(n)` is the product `1 * 2 * … * n`. */
  lemma {:induction false} FaktoriyelIsProduct(n: nat)
    ensures Faktoriyel(n) == Product(1, n)
  {
    if n >= 2 {
      FaktoriyelIsProduct(n - 1);
      ProductExtend(1, n - 1);
      calc {
        Faktoriyel(n);
        n * Faktoriyel(n - 1);
        n * Product(1, n - 1);
        Product(1, n - 1) * n;
        Product(1, n);
      }
    } else if n == 1 {
      assert Product(2, 1) == 1;
    }
  }

  lemma MultipleStaysMultiple(a: nat, b: nat, k: nat)
    requires k >= 1 && a % k == 0
    ensures (b * a) % k == 0
  {
    var q := a / k;
    assert a == q * k;
    assert b * a == (b * q) * k;
    DivOfMultiple(b * q, k);
  }

  /** Every number from 1 to `n` divides `faktoriyel(n)`. */
  lemma {:induction false} FaktoriyelDivisible(n: nat, k: nat)
    requires 1 <= k <= n
    ensures Faktoriyel(n) % k == 0
  {
    if n >= 2 {
      var f := Faktoriyel(n - 1);
      assert Faktoriyel(n) == n * f;
      if k < n {
        FaktoriyelDivisible(n - 1, k);
        MultipleStaysMultiple(f, n, k);
      } else {
        DivOfMultiple(f, n);
        assert f * n == n * f;
      }
    }
  }

  /** `arg_sum(*args)`: `sum(args)`. */
  function ArgSum(args: seq<real>): (r: real)
    ensures args == [] ==> r == 0.0
    ensures |args| == 1 ==> r == args[0]
  {
    if args == [] then 0.0 else args[0] + ArgSum(args[1..])
  }

  /** Summing two argument lists one after the other is summing each. */
  lemma {:induction false} ArgSumAppend(xs: seq<real>, ys: seq<real>)
    ensures ArgSum(xs + ys) == ArgSum(xs) + ArgSum(ys)
  {
    if xs == [] {
      assert xs + ys == ys;
    } else {
      assert (xs + ys)[1..] == xs[1..] + ys;
      ArgSumAppend(xs[1..], ys);
    }
  }

  /** `default_param(a, b=10)`. */
  function DefaultParam(a: real, b: real := 10.0): real
  {
    a + b
  }

  /** Without a second argument, `default_param(a)` is `a + 10`. */
  lemma DefaultParamAddsTen(a: real)
    ensures DefaultParam(a) == a + 10.0
    ensures DefaultParam(a) == Toplama(a, 10.0)
  {
  }
}
