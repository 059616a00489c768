/** Inheritance, polymorphism and encapsulation in the object-oriented
    tutorial (`python_basic_learn/OOP/Inheritance_oop.py`). */
module InheritanceOop {
  import opened Wrappers
  import opened Text

  // ---------------------------------------------------------------------
  // Inheritance: attribute lookup along the base-class chain
  // ---------------------------------------------------------------------

  /** The two classes of the musician hierarchy. */
  datatype MusicianClass = Musician | MusicianPlus

  /** The methods looked up on them. */
  datatype MethodName = Init | Test1 | Test2

  /** The direct base class. */
  function Base(c: MusicianClass): Option<MusicianClass>
  {
    if c == MusicianPlus then Some(Musician) else None
  }

  /** The methods a class defines in its own body. */
  function OwnMethods(c: MusicianClass): set<MethodName>
  {
    match c
    case Musician => {Init, Test1, Test2}
    case MusicianPlus => {Init, Test1}
  }

  /** Lookup of a method: the class itself first, then its base. */
  function Resolve(c: MusicianClass, m: MethodName): (r: Option<MusicianClass>)
    ensures r.Some? ==> m in OwnMethods(r.value)
    ensures m in OwnMethods(c) ==> r == Some(c)
    decreases c == MusicianPlus
  {
    if m in OwnMethods(c) then Some(c)
    else match Base(c)
      case None => None
      case Some(b) => Resolve(b, m)
  }

  /** `test1` on a `MusicianPlus` runs the override; `test2` the inherited one. */
  lemma OverrideAndInherit()
    ensures Resolve(MusicianPlus, Test1) == Some(MusicianPlus)
    ensures Resolve(MusicianPlus, Test2) == Some(Musician)
    ensures forall m :: Resolve(MusicianPlus, m).Some?
  {
    assert Resolve(Musician, Test2) == Some(Musician);
    forall m ensures Resolve(MusicianPlus, m).Some? {
      match m
      case Init =>
      case Test1 =>
      case Test2 =>
    }
  }

  /** The line `test1` prints for an instance of class `c`. */
  function Test1Line(c: MusicianClass): (line: string)
    ensures Resolve(c, Test1) == Some(Musician) ==> line == "test1 from Musician"
    ensures Resolve(c, Test1) == Some(MusicianPlus) ==> line == "test1 from MusicianPlus"
  {
    if Resolve(c, Test1) == Some(MusicianPlus) then "test1 from MusicianPlus" else "test1 from Musician"
  }

  /** The line `test2` prints for an instance of class `c`. */
  function Test2Line(c: MusicianClass): (line: string)
    ensures Resolve(c, Test2) == Some(Musician) ==> line == "test2 from Musician"
  {
    "test2 from Musician"
  }

  /** A musician object: its class and the `name` set by `Musician.__init__`. */
  class MusicianObject {
    const cls: MusicianClass
    var name: string

    /** Both constructors store the name; `MusicianPlus.__init__` does it by
        calling `Musician.__init__`. */
    constructor(cls: MusicianClass, name: string)
      ensures this.cls == cls && this.name == name
    {
      this.cls := cls;
      this.name := name;
    }
  }

  // ---------------------------------------------------------------------
  // Polymorphism: one `info` per fruit class
  // ---------------------------------------------------------------------

  datatype Fruit = Banana(name: string) | Apple(name: string)

  /** `Banana.info` and `Apple.info`. */
  function Info(f: Fruit): (r: string)
    ensures |r| == 12 + |f.name| && r[12..] == f.name
    ensures r[..12] == if f.Banana? then "100 colorie " else "200 colorie "
  {
    match f
    case Banana(n) => "100 colorie " + n
    case Apple(n) => "200 colorie " + n
  }

  /** The calorie figure tells the fruit class apart, and the rest of the
      text is the name, so `info` loses nothing. */
  lemma InfoDistinguishes(f: Fruit, g: Fruit)
    ensures f.Banana? <==> Info(f)[..4] == "100 "
    ensures Info(f) == Info(g) <==> f == g
  {
    assert Info(f)[..4] == (if f.Banana? then "100 " else "200 ");
    assert Info(g)[..4] == (if g.Banana? then "100 " else "200 ");
    if Info(f) == Info(g) {
      assert f.name == Info(f)[12..] == Info(g)[12..] == g.name;
    }
  }

  // ---------------------------------------------------------------------
  // Encapsulation: the private price
  // ---------------------------------------------------------------------

  /** `Phone`. `price` is the name-mangled private attribute; `outsidePrice`
      is the separate `__price` attribute an outside assignment creates. */
  class Phone {
    var name: string
    var price: int
    var outsidePrice: Option<int>

    constructor(name: string, price: int)
      ensures this.name == name && this.price == price && outsidePrice.None?
    {
      this.name := name;
      this.price := price;
      outsidePrice := None;
    }

    /** The line `info` prints. */
    function Info(): (r: string)
      reads this
      ensures |r| == |name| + 10 + |IntToString(price)|
      ensures r[..|name|] == name && r[|name|..|name| + 10] == " price is "
      ensures r[|name| + 10..] == IntToString(price)
    {
      name + " price is " + IntToString(price)
    }

    /** `changePrice`: replaces the private price; the name stays. */
    method ChangePrice(price: int)
      modifies this`price
      ensures this.price == price
    {
      this.price := price;
    }

    /** `iphone.__price = …` outside the class: a new attribute, not the
        private one, so `info` reports the same line as before. */
    method AssignOutside(price: int)
      modifies this`outsidePrice
      ensures outsidePrice == Some(price)
      ensures Info() == old(Info())
    {
      outsidePrice := Some(price);
    }
  }
}
