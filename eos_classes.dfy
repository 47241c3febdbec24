/**
 The Python values that BurnMan's equation-of-state factory inspects.

 The factory distinguishes three shapes of argument: a string, an object that is an
 instance of some class, and a class object itself. The concrete equation-of-state
 classes are opaque tags here: only their identity and their Python class name
 (`__name__`) matter to the factory, never their thermodynamics.
 */
module EosClasses {

  /** The equation-of-state classes: the library's own classes that the factory can
      build by name, the abstract base `EquationOfState` itself, and any subclass a
      user defines. */
  datatype EosKind =
    | SLB2 | Vinet | Morse | RKprime | AA | MGD2 | MGD3 | SLB3 | SLB3Conductive
    | Murnaghan | BM2 | BM3 | BM4 | MT | MACAW | SPOCK | HP98 | HP_TMT | HP_TMTL
    | CORK | DKS_L | DKS_S | BroshCalphad
    | EquationOfStateBase
    | Custom(name: string)
  {
    /** True for the classes shipped with the library (every tag but the base class
        and user-defined subclasses). */
    predicate InLibrary() {
      !EquationOfStateBase? && !Custom?
    }
  }

  /** A Python class as far as the factory can tell them apart. */
  datatype PyClass =
    | Eos(kind: EosKind)              // EquationOfState or one of its subclasses
    | CombinedMineralMethodClass      // derives from `object`, not from EquationOfState
    | Foreign(foreignName: string)    // any other class, named by its `__name__`

  /** A Python object: its identity and the class it is an instance of. Two `Obj`
      values are the same object exactly when they are equal. */
  datatype Obj = Obj(id: nat, cls: PyClass)

  /** The argument of the factory. */
  datatype PyValue =
    | Str(s: string)
    | Instance(obj: Obj)
    | Class(cls: PyClass)

  /** `__name__` of an equation-of-state class. The factory never quotes it, since an
      equation-of-state argument never reaches its error branch; it is here so that
      `ClassName` and `TypeName` are defined for every class. */
  function KindName(k: EosKind): string {
    match k
    case SLB2 => "SLB2"
    case Vinet => "Vinet"
    case Morse => "Morse"
    case RKprime => "RKprime"
    case AA => "AA"
    case MGD2 => "MGD2"
    case MGD3 => "MGD3"
    case SLB3 => "SLB3"
    case SLB3Conductive => "SLB3Conductive"
    case Murnaghan => "Murnaghan"
    case BM2 => "BM2"
    case BM3 => "BM3"
    case BM4 => "BM4"
    case MT => "MT"
    case MACAW => "MACAW"
    case SPOCK => "SPOCK"
    case HP98 => "HP98"
    case HP_TMT => "HP_TMT"
    case HP_TMTL => "HP_TMTL"
    case CORK => "CORK"
    case DKS_L => "DKS_L"
    case DKS_S => "DKS_S"
    case BroshCalphad => "BroshCalphad"
    case EquationOfStateBase => "EquationOfState"
    case Custom(n) => n
  }

  /** `__name__` of a class. */
  function ClassName(c: PyClass): string {
    match c
    case Eos(k) => KindName(k)
    case CombinedMineralMethodClass => "CombinedMineralMethod"
    case Foreign(n) => n
  }

  /** `v.__class__.__name__`: a string's class is `str`, an object's class is the one
      it was built from, and the class of a class object is its metaclass `type`. */
  function TypeName(v: PyValue): string {
    match v
    case Str(_) => "str"
    case Instance(o) => ClassName(o.cls)
    case Class(_) => "type"
  }
}
