/**
 BurnMan's equation-of-state factory `create(method)` and the dummy method object
 `CombinedMineralMethod` (burnman/eos/helper.py).

 `Create` is the factory's dispatch in the source's order: a string is matched
 exactly against the arms of the name chain, first arm first; an `EquationOfState`
 instance is handed back untouched; an `EquationOfState` class is instantiated;
 everything else is refused with the message "unsupported material method "
 followed by the string or by the argument's class name. `NameOf`, defined class by
 class, is an independent statement of which name builds which class, and the
 lemmas show that the chain and `NameOf` are inverse to each other.
 */
module Helper {
  import opened EosClasses

  /** Head of every error message the factory raises. */
  const UnsupportedMethod := "unsupported material method "

  /** What a successful call hands back: a newly built instance of a class, or the
      very object that was passed in. */
  datatype Created = Fresh(cls: PyClass) | Same(obj: Obj)

  /** The factory's outcome: a method object, or the exception it raises. */
  datatype Result = Ok(value: Created) | Err(msg: string)

  /** Outcome of `validate_parameters`: it either accepts the parameters or raises. */
  datatype Outcome = Accepted | Rejected(reason: string)

  /** The classes the factory can build from a name: the 23 library equations of
      state and `CombinedMineralMethod`. */
  predicate Recognised(c: PyClass) {
    (c.Eos? && c.kind.InLibrary()) || c.CombinedMineralMethodClass?
  }

  /** The one name under which the factory builds a recognised class. */
  function NameOf(c: PyClass): string
    requires Recognised(c)
  {
    match c
    case CombinedMineralMethodClass => "combined"
    case Eos(k) =>
      match k
      case SLB2 => "slb2"
      case Vinet => "vinet"
      case Morse => "morse"
      case RKprime => "rkprime"
      case AA => "aa"
      case MGD2 => "mgd2"
      case MGD3 => "mgd3"
      case SLB3 => "slb3"
      case SLB3Conductive => "slb3-conductive"
      case Murnaghan => "murnaghan"
      case BM2 => "bm2"
      case BM3 => "bm3"
      case BM4 => "bm4"
      case MT => "mt"
      case MACAW => "macaw"
      case SPOCK => "spock"
      case HP98 => "hp98"
      case HP_TMT => "hp_tmt"
      case HP_TMTL => "hp_tmtL"
      case CORK => "cork"
      case DKS_L => "dks_l"
      case DKS_S => "dks_s"
      case BroshCalphad => "brosh_calphad"
  }

  /** Position, counted from 0, of a recognised class's arm in the factory's chain of
      name comparisons. */
  function ArmIndex(c: PyClass): (i: nat)
    requires Recognised(c)
    ensures i < 24
  {
    match c
    case CombinedMineralMethodClass => 23
    case Eos(k) =>
      match k
      case SLB2 => 0
      case Vinet => 1
      case Morse => 2
      case RKprime => 3
      case AA => 4
      case MGD2 => 5
      case MGD3 => 6
      case SLB3 => 7
      case SLB3Conductive => 8
      case Murnaghan => 9
      case BM2 => 10
      case BM3 => 11
      case BM4 => 12
      case MT => 13
      case MACAW => 14
      case SPOCK => 15
      case HP98 => 16
      case HP_TMT => 17
      case HP_TMTL => 18
      case CORK => 19
      case DKS_L => 20
      case DKS_S => 21
      case BroshCalphad => 22
  }

  /** The class built by the arm at position `i` of the chain. */
  function ClassAt(i: nat): (c: PyClass)
    requires i < 24
    ensures Recognised(c)
  {
    match i
    case 0 => Eos(SLB2)
    case 1 => Eos(Vinet)
    case 2 => Eos(Morse)
    case 3 => Eos(RKprime)
    case 4 => Eos(AA)
    case 5 => Eos(MGD2)
    case 6 => Eos(MGD3)
    case 7 => Eos(SLB3)
    case 8 => Eos(SLB3Conductive)
    case 9 => Eos(Murnaghan)
    case 10 => Eos(BM2)
    case 11 => Eos(BM3)
    case 12 => Eos(BM4)
    case 13 => Eos(MT)
    case 14 => Eos(MACAW)
    case 15 => Eos(SPOCK)
    case 16 => Eos(HP98)
    case 17 => Eos(HP_TMT)
    case 18 => Eos(HP_TMTL)
    case 19 => Eos(CORK)
    case 20 => Eos(DKS_L)
    case 21 => Eos(DKS_S)
    case 22 => Eos(BroshCalphad)
    case _ => CombinedMineralMethodClass
  }

  /** The string branch of `create(method)`: the if/elif chain of exact,
      case-sensitive comparisons, in the source's order; the first equal name wins. */
  function FromName(name: string): (r: Result)
    // a success is a new instance of the recognised class whose name is exactly `name`
    ensures r.Ok? ==> r.value.Fresh? && Recognised(r.value.cls) && NameOf(r.value.cls) == name
    // a refusal quotes the name verbatim
    ensures r.Err? ==> r.msg == UnsupportedMethod + name
  {
    match name
    case "slb2" => Ok(Fresh(Eos(SLB2)))
    case "vinet" => Ok(Fresh(Eos(Vinet)))
    case "morse" => Ok(Fresh(Eos(Morse)))
    case "rkprime" => Ok(Fresh(Eos(RKprime)))
    case "aa" => Ok(Fresh(Eos(AA)))
    case "mgd2" => Ok(Fresh(Eos(MGD2)))
    case "mgd3" => Ok(Fresh(Eos(MGD3)))
    case "slb3" => Ok(Fresh(Eos(SLB3)))
    case "slb3-conductive" => Ok(Fresh(Eos(SLB3Conductive)))
    case "murnaghan" => Ok(Fresh(Eos(Murnaghan)))
    case "bm2" => Ok(Fresh(Eos(BM2)))
    case "bm3" => Ok(Fresh(Eos(BM3)))
    case "bm4" => Ok(Fresh(Eos(BM4)))
    case "mt" => Ok(Fresh(Eos(MT)))
    case "macaw" => Ok(Fresh(Eos(MACAW)))
    case "spock" => Ok(Fresh(Eos(SPOCK)))
    case "hp98" => Ok(Fresh(Eos(HP98)))
    case "hp_tmt" => Ok(Fresh(Eos(HP_TMT)))
    case "hp_tmtL" => Ok(Fresh(Eos(HP_TMTL)))
    case "cork" => Ok(Fresh(Eos(CORK)))
    case "dks_l" => Ok(Fresh(Eos(DKS_L)))
    case "dks_s" => Ok(Fresh(Eos(DKS_S)))
    case "brosh_calphad" => Ok(Fresh(Eos(BroshCalphad)))
    case "combined" => Ok(Fresh(CombinedMineralMethodClass))
    case _ => Err(UnsupportedMethod + name)
  }

  /** `create(method)`. The tests run in the source's order: string, then
      `EquationOfState` instance, then `EquationOfState` subclass, then failure. */
  function Create(v: PyValue): (r: Result)
    // the only object ever handed back unchanged is the argument itself
    ensures r.Ok? && r.value.Same? ==> v.Instance? && r.value.obj == v.obj
    // every success is an equation of state, except the `CombinedMineralMethod` that
    // the name "combined", and only it, builds
    ensures r.Ok? ==> CreatedClass(r.value).Eos?
                      || (v == Str("combined") && r.value == Fresh(CombinedMineralMethodClass))
    // a refused string is quoted verbatim; any other argument by its class name
    ensures r.Err? ==> r.msg == UnsupportedMethod + (if v.Str? then v.s else TypeName(v))
  {
    if v.Str? then
      FromName(v.s)
    else if v.Instance? && v.obj.cls.Eos? then
      Ok(Same(v.obj))
    else if v.Class? && v.cls.Eos? then
      Ok(Fresh(v.cls))
    else
      Err(UnsupportedMethod + TypeName(v))
  }

  /** `CombinedMineralMethod.validate_parameters`, called on the object `self`:
      accepts every parameter dictionary. Being a function of values, it cannot
      change the dictionary. */
  function ValidateParameters<V>(self: Obj, params: map<string, V>): (r: Outcome)
    requires self.cls.CombinedMineralMethodClass?
    ensures r == Accepted
  {
    Accepted
  }

  /** The class of the object a successful call hands back. */
  function CreatedClass(c: Created): PyClass {
    match c
    case Fresh(cls) => cls
    case Same(o) => o.cls
  }

  /** The object a result stands for, so that it can be passed to `Create` again;
      a newly built instance receives the identity `freshId`. */
  function Realise(c: Created, freshId: nat): (o: Obj)
    ensures o.cls == CreatedClass(c)
  {
    match c
    case Fresh(cls) => Obj(freshId, cls)
    case Same(o) => o
  }

  /** ASCII upper-casing, to name the case variants of a method name. */
  function AsciiUpper(s: string): (u: string)
    ensures |u| == |s|
    ensures forall i | 0 <= i < |s| ::
              u[i] == (if 'a' <= s[i] <= 'z' then (s[i] as int - 32) as char else s[i])
  {
    if s == [] then []
    else
      var ch := s[0];
      [if 'a' <= ch <= 'z' then (ch as int - 32) as char else ch] + AsciiUpper(s[1..])
  }

  // ---------------------------------------------------------------------------
  // The name chain

  /** Every recognised class is built from its own name. */
  lemma NameRoundTrip(c: PyClass)
    requires Recognised(c)
    ensures Create(Str(NameOf(c))) == Ok(Fresh(c))
  {
  }

  /** What a string builds is exactly the recognised class whose name it is: the
      chain and `NameOf` are inverse to each other. */
  lemma NameLookupExact(s: string, c: PyClass)
    ensures Create(Str(s)) == Ok(Fresh(c)) <==> Recognised(c) && NameOf(c) == s
  {
    if Recognised(c) && NameOf(c) == s {
      NameRoundTrip(c);
    }
  }

  /** A string is refused, quoted verbatim, exactly when it is no recognised class's
      name. */
  lemma UnknownNameRefused(s: string)
    ensures Create(Str(s)).Err? <==> forall c | Recognised(c) :: NameOf(c) != s
    ensures Create(Str(s)).Err? ==> Create(Str(s)) == Err(UnsupportedMethod + s)
  {
    if Create(Str(s)).Err? {
      forall c | Recognised(c) ensures NameOf(c) != s {
        NameLookupExact(s, c);
      }
    }
  }

  /** Two different recognised classes never share a name, so two different names
      never build the same class. */
  lemma NamesInjective(c1: PyClass, c2: PyClass)
    requires Recognised(c1) && Recognised(c2) && NameOf(c1) == NameOf(c2)
    ensures c1 == c2
  {
    NameRoundTrip(c1);
    NameRoundTrip(c2);
  }

  /** `ClassAt` and `ArmIndex` are inverse: positions and recognised classes are in
      one-to-one correspondence. */
  lemma ClassAtArmIndex(c: PyClass, i: nat)
    requires i < 24
    ensures ArmIndex(ClassAt(i)) == i
    ensures Recognised(c) ==> ClassAt(ArmIndex(c)) == c
  {
  }

  /** The chain has exactly 24 arms, one per recognised class, carrying 24 different
      names, and every string the factory accepts is one of them. */
  lemma TwentyFourNames(i: nat, j: nat, s: string)
    requires i < 24 && j < 24
    ensures i != j ==> NameOf(ClassAt(i)) != NameOf(ClassAt(j))
    ensures Create(Str(s)).Ok? ==> exists k: nat | k < 24 :: NameOf(ClassAt(k)) == s
  {
    if NameOf(ClassAt(i)) == NameOf(ClassAt(j)) {
      NamesInjective(ClassAt(i), ClassAt(j));
      ClassAtArmIndex(ClassAt(i), i);
      ClassAtArmIndex(ClassAt(j), j);
    }
    if Create(Str(s)).Ok? {
      var c := Create(Str(s)).value.cls;
      ClassAtArmIndex(c, 0);
      assert NameOf(ClassAt(ArmIndex(c))) == s;
    }
  }

  /** Two strings the factory accepts and builds the same class from are the same
      string. */
  lemma CreateInjectiveOnNames(s1: string, s2: string)
    requires Create(Str(s1)).Ok? && Create(Str(s1)) == Create(Str(s2))
    ensures s1 == s2
  {
  }

  /** Matching is exact: a recognised class is built from no spelling but its own,
      so no prefix, extension or case variant of its name builds it. */
  lemma OnlyExactSpelling(s: string, c: PyClass)
    requires Recognised(c) && s != NameOf(c)
    ensures Create(Str(s)) != Ok(Fresh(c))
  {
  }

  /** Names that extend one another build different classes. */
  lemma PrefixNamesToldApart()
    ensures Create(Str("slb3")) == Ok(Fresh(Eos(SLB3)))
    ensures Create(Str("slb3-conductive")) == Ok(Fresh(Eos(SLB3Conductive)))
    ensures Create(Str("hp_tmt")) == Ok(Fresh(Eos(HP_TMT)))
    ensures Create(Str("hp_tmtL")) == Ok(Fresh(Eos(HP_TMTL)))
  {
  }

  /** Near misses of a name are refused, quoted verbatim. */
  lemma NearMissesRefused()
    ensures Create(Str("hp_tmtl")) == Err(UnsupportedMethod + "hp_tmtl")
    ensures Create(Str("slb")) == Err(UnsupportedMethod + "slb")
    ensures Create(Str("slb3 ")) == Err(UnsupportedMethod + "slb3 ")
  {
  }

  /** Every method name starts with a lower-case ASCII letter. */
  lemma NamesStartLowercase(c: PyClass)
    requires Recognised(c)
    ensures |NameOf(c)| > 0 && 'a' <= NameOf(c)[0] <= 'z'
  {
  }

  /** The factory refuses every string that does not start with a lower-case ASCII
      letter, the empty string included. */
  lemma NonLowercaseInitialRefused(s: string)
    requires s == [] || !('a' <= s[0] <= 'z')
    ensures Create(Str(s)) == Err(UnsupportedMethod + s)
  {
    forall c | Recognised(c) ensures NameOf(c) != s {
      NamesStartLowercase(c);
    }
    UnknownNameRefused(s);
  }

  /** An upper-cased string holds no lower-case ASCII letter. */
  lemma {:induction false} UpperHasNoLowercase(s: string)
    ensures forall i | 0 <= i < |AsciiUpper(s)| :: !('a' <= AsciiUpper(s)[i] <= 'z')
  {
    if s != [] {
      UpperHasNoLowercase(s[1..]);
      assert forall i | 1 <= i < |AsciiUpper(s)| :: AsciiUpper(s)[i] == AsciiUpper(s[1..])[i - 1];
    }
  }

  /** Matching is case-sensitive: the upper-cased name of every recognised class is
      refused. */
  lemma UpperCaseRefused(c: PyClass)
    requires Recognised(c)
    ensures Create(Str(AsciiUpper(NameOf(c)))) == Err(UnsupportedMethod + AsciiUpper(NameOf(c)))
  {
    NamesStartLowercase(c);
    UpperHasNoLowercase(NameOf(c));
    NonLowercaseInitialRefused(AsciiUpper(NameOf(c)));
  }

  /** Strings never reach the object or class branches: a string builds a new
      instance of a recognised class or fails with the string itself in the
      message, never with "str". */
  lemma StringsStayInNameBranch(s: string)
    ensures Create(Str(s)).Ok? ==> Create(Str(s)).value.Fresh? && Recognised(Create(Str(s)).value.cls)
    ensures Create(Str(s)).Err? ==> Create(Str(s)).msg == UnsupportedMethod + s
  {
    if Create(Str(s)).Ok? {
      NameLookupExact(s, Create(Str(s)).value.cls);
    }
  }

  // ---------------------------------------------------------------------------
  // Objects and classes

  /** An `EquationOfState` instance comes back as the very same object. */
  lemma InstancePassThrough(o: Obj)
    requires o.cls.Eos?
    ensures Create(Instance(o)) == Ok(Same(o))
  {
  }

  /** An `EquationOfState` class, including the base class and user subclasses,
      yields a new instance of exactly that class. */
  lemma ClassInstantiated(k: EosKind)
    ensures Create(Class(Eos(k))) == Ok(Fresh(Eos(k)))
  {
  }

  /** Anything that is neither a string, nor an EOS instance, nor an EOS class is
      refused with its class name; for a class argument that name is "type". */
  lemma OthersRefused(v: PyValue)
    requires !v.Str?
    requires !(v.Instance? && v.obj.cls.Eos?) && !(v.Class? && v.cls.Eos?)
    ensures Create(v) == Err(UnsupportedMethod + TypeName(v))
    ensures v.Class? ==> Create(v) == Err(UnsupportedMethod + "type")
  {
  }

  // ---------------------------------------------------------------------------
  // Feeding the factory its own output

  /** Re-feeding a result succeeds exactly when it is an equation of state, and then
      hands back that very object: the factory is idempotent on everything but
      "combined". */
  lemma RefeedResult(v: PyValue, freshId: nat)
    requires Create(v).Ok?
    ensures var o := Realise(Create(v).value, freshId);
            Create(Instance(o)).Ok? <==> o.cls.Eos?
    ensures var o := Realise(Create(v).value, freshId);
            o.cls.Eos? ==> Create(Instance(o)) == Ok(Same(o))
    ensures var o := Realise(Create(v).value, freshId);
            !o.cls.Eos? ==> v == Str("combined")
  {
  }

  /** `create` is not idempotent on "combined": its result is not an
      `EquationOfState`, so feeding it back is refused with its class name. */
  lemma CombinedNotIdempotent(freshId: nat)
    ensures Create(Str("combined")) == Ok(Fresh(CombinedMineralMethodClass))
    ensures Create(Instance(Realise(Create(Str("combined")).value, freshId)))
            == Err(UnsupportedMethod + "CombinedMineralMethod")
  {
    NameRoundTrip(CombinedMineralMethodClass);
  }

  /** The object that "combined" builds is a `CombinedMineralMethod`, and its
      `validate_parameters` accepts any parameters. */
  lemma CombinedAcceptsAnyParameters<V>(freshId: nat, params: map<string, V>)
    ensures var o := Realise(Create(Str("combined")).value, freshId);
            o == Obj(freshId, CombinedMineralMethodClass) && ValidateParameters(o, params) == Accepted
  {
    NameRoundTrip(CombinedMineralMethodClass);
  }
}
