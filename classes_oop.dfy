/** The first classes of the object-oriented tutorial
    (`python_basic_learn/OOP/classes_oop.py`). */
module ClassesOop {

  /** `Person`: three fields set by the constructor. */
  class Person {
    var name: string
    var age: int
    var gender: string

    constructor(name: string, age: int, gender: string)
      ensures this.name == name && this.age == age && this.gender == gender
    {
      this.name := name;
      this.age := age;
      this.gender := gender;
    }

    /** `denemeFnc`: resets the age to 18; name and gender stay. */
    method DenemeFnc()
      modifies this`age
      ensures age == 18
    {
      age := 18;
    }
  }

  /** `Dog`: an age, and a copy of the class attribute `year`. */
  class Dog {
    /** The class attribute `year`. */
    static const Year: int := 7

    var age: int
    var dogHumanAge: int

    constructor(age: int := 5)
      ensures this.age == age
      ensures dogHumanAge == Year
    {
      this.age := age;
      dogHumanAge := Year;
    }

    /** `humanAge`: seven dog years per year of age. */
    function HumanAge(): (r: int)
      reads this
      ensures r == age * Year
    {
      age * 7
    }
  }

  /** The copied `dogHumanAge` does not depend on the age given. */
  method DogsAgree(a: int, b: int) returns (same: bool)
    ensures same
  {
    var d1 := new Dog(a);
    var d2 := new Dog(b);
    same := d1.dogHumanAge == d2.dogHumanAge;
  }

  /** A dog built without an age is five, so seven times that in human years. */
  method DefaultDog() returns (years: int)
    ensures years == 35
  {
    var d := new Dog();
    years := d.HumanAge();
  }
}
