/** The school classes a student can choose: Nursery, LKG, UKG and classes 1
    to 10 (the `UserClass` union of store/useUserStore.ts). */
module Classes {
  import opened Text

  datatype ClassName = Nursery | LKG | UKG | Grade(n: nat)

  /** Only classes 1 to 10 exist among the numbered ones. */
  type UserClass = c: ClassName | !c.Grade? || 1 <= c.n <= 10 witness Nursery

  /** The string the program uses for a class: its name, or the class number
      in decimal. */
  function Name(c: UserClass): (r: string)
    ensures |r| > 0
    ensures c.Grade? <==> forall i :: 0 <= i < |r| ==> IsDigit(r[i])
  {
    match c
    case Nursery => assert !IsDigit("Nursery"[0]); "Nursery"
    case LKG => assert !IsDigit("LKG"[0]); "LKG"
    case UKG => assert !IsDigit("UKG"[0]); "UKG"
    case Grade(n) => NatToString(n)
  }

  /** Different classes have different names, so a name identifies its class. */
  lemma NameInjective(a: UserClass, b: UserClass)
    requires Name(a) == Name(b)
    ensures a == b
  {
    if a.Grade? && b.Grade? {
      NatToStringRoundTrip(a.n);
      NatToStringRoundTrip(b.n);
    } else if !a.Grade? && !b.Grade? {
      assert Name(a)[0] == Name(b)[0];
    }
  }
}
