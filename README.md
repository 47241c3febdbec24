# BurnMan equation-of-state factory, modelled in Dafny

BurnMan is a thermoelastic and thermodynamic toolkit for the Earth and planetary
sciences. A mineral names its equation of state (EOS) through a `method`. The
factory `create(method)` in `burnman/eos/helper.py` turns that `method` into an EOS
object. The factory:

- builds a new EOS object from one of 24 method names (`"slb3"`, `"vinet"`,
  `"hp_tmtL"`, …, and `"combined"`, which builds the dummy `CombinedMineralMethod`);
- hands back an existing `EquationOfState` instance unchanged;
- instantiates an `EquationOfState` subclass;
- raises `"unsupported material method "` followed by the unknown name, or followed
  by the class name of any other argument.

This project models that factory and the dummy's `validate_parameters`.

- `eos_classes.dfy` (module `EosClasses`) models the Python values the factory
  inspects. A value is a string (`Str`), an object with an identity and a class
  (`Instance(Obj(id, cls))`), or a class object (`Class(cls)`). The EOS classes are
  opaque tags (`EosKind`): their thermodynamics plays no part in the factory. Each
  tag carries its Python `__name__` (`KindName`, `ClassName`, `TypeName`).
- `helper.dfy` (module `Helper`) holds the factory itself. `FromName` is the
  string branch, the if/elif chain in source order. `Create` is the whole dispatch.
  The lemmas compare the factory with `NameOf`, defined class by class, which
  states which name builds which class; they show that the chain and `NameOf` are
  inverse to each other. `ArmIndex` gives each recognised class the position of
  its arm in the chain, and `ClassAt` is its inverse, so that the 24 names can be
  counted.
  "The very same object" is modelled as the result `Same(o)` holding the argument
  `o` itself. "A new instance" is modelled as `Fresh(cls)`. `Realise` gives a fresh
  result an identity so that it can be fed back into the factory.

## Model

| member | source | states |
|---|---|---|
| `Helper.FromName` | burnman/eos/helper.py:46-96 | a string either builds a new instance of a recognised class whose one name is exactly that string, or is refused with "unsupported material method " followed by the string itself |
| `Helper.Create` | burnman/eos/helper.py:41-102 | the only object ever returned unchanged is the argument; every success is an EOS object, or the `CombinedMineralMethod` dummy that only the name "combined" builds; every refusal quotes the unknown string, or otherwise the argument's class name |
| `Helper.NameRoundTrip` | burnman/eos/helper.py:46-94 | each of the 24 recognised classes is built, as a new instance, from its own name |
| `Helper.NameLookupExact` | burnman/eos/helper.py:46-96 | a string builds a recognised class if and only if it is exactly that class's name |
| `Helper.UnknownNameRefused` | burnman/eos/helper.py:46-96 | a string is refused if and only if it is no recognised class's name, and the message is "unsupported material method " followed by the string verbatim |
| `Helper.NamesInjective` | burnman/eos/helper.py:47-94 | two recognised classes with the same name are the same class: no name appears on two arms |
| `Helper.ClassAtArmIndex` | burnman/eos/helper.py:47-94 | the chain's 24 positions and the 24 recognised classes correspond one to one |
| `Helper.TwentyFourNames` | burnman/eos/helper.py:47-94 | the names at two different positions of the chain differ, and every string the factory accepts is the name at one of its 24 positions |
| `Helper.CreateInjectiveOnNames` | burnman/eos/helper.py:46-94 | two strings that the factory accepts and that give the same result are the same string |
| `Helper.OnlyExactSpelling` | burnman/eos/helper.py:47-94 | a recognised class is built from no string but its own name: no prefix, extension or case variant builds it |
| `Helper.PrefixNamesToldApart` | burnman/eos/helper.py:61-84 | "slb3" and "slb3-conductive", and "hp_tmt" and "hp_tmtL", build different classes, each the one its arm names |
| `Helper.NearMissesRefused` | burnman/eos/helper.py:61-96 | "hp_tmtl", "slb" and "slb3 " are refused, each quoted verbatim |
| `Helper.NamesStartLowercase` | burnman/eos/helper.py:47-93 | every method name begins with a lower-case ASCII letter |
| `Helper.NonLowercaseInitialRefused` | burnman/eos/helper.py:46-96 | the empty string, and every string that does not start with a lower-case ASCII letter, is refused with the string quoted |
| `Helper.UpperCaseRefused` | burnman/eos/helper.py:46-96 | the upper-cased name of every recognised class is refused, so matching is case-sensitive |
| `Helper.StringsStayInNameBranch` | burnman/eos/helper.py:46-96 | a string never reaches the instance or class branches: it builds a new recognised object, or is refused with the string itself in the message (never "str") |
| `Helper.InstancePassThrough` | burnman/eos/helper.py:97-98 | an `EquationOfState` instance is returned as the very same object |
| `Helper.ClassInstantiated` | burnman/eos/helper.py:99-100 | an `EquationOfState` class, whether the base class, a library class or a user subclass, yields a new instance of exactly that class |
| `Helper.OthersRefused` | burnman/eos/helper.py:101-102 | any other argument is refused with its class name; for a class that does not derive from `EquationOfState` that name is "type" |
| `Helper.RefeedResult` | burnman/eos/helper.py:97-102 | feeding a result back succeeds exactly when it is an EOS object, and then returns that very object |
| `Helper.CombinedNotIdempotent` | burnman/eos/helper.py:93-102 | "combined" builds a `CombinedMineralMethod`, and feeding that back is refused with "unsupported material method CombinedMineralMethod" |
| `Helper.ValidateParameters` | burnman/eos/helper.py:35-36 | `CombinedMineralMethod.validate_parameters`, called on a `CombinedMineralMethod` object, accepts every parameter dictionary |
| `Helper.CombinedAcceptsAnyParameters` | burnman/eos/helper.py:35-36 | the object that "combined" builds, once given its identity, is a `CombinedMineralMethod`, and its `validate_parameters` accepts any parameters |

## Left out

- The EOS classes imported at burnman/eos/helper.py:8-25 are opaque tags. Their
  thermodynamic formulas are floating-point code that the factory never looks at.
  Their Python class names are taken from the constructor names the factory calls.
- `Helper.ClassInstantiated`: every constructor call at burnman/eos/helper.py:48-100
  is taken to succeed. In Python, `method()` raises `TypeError` for a user subclass
  whose `__init__` needs arguments, and that error passes out of `create`
  unchanged. Neither `Helper.Create` nor `Helper.FromName` models that failure,
  because the model does not see constructor signatures.
- Object allocation: a new instance is the result `Fresh(cls)`, not a heap
  object. Identity is the `id` of an `Obj`, and `Realise` takes the new identity
  as a parameter.
- Subclasses of `str` and classes with a metaclass other than `type`: the model
  treats every string as `Str` and names every class's class "type". A user class
  that is itself named `str` or `type` is modelled, as `Foreign`, and its
  instances are refused with that name.
- `Helper.ValidateParameters`: parameters are an immutable map, so "changes
  nothing" holds by construction rather than being stated about a mutable
  dictionary.
- The errors-in-variables fitting engine, `Composite`, `AnisotropicMineral` and
  the benchmark plotting script live outside burnman/eos/helper.py and are not
  modelled.
