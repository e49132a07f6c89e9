/** The registrar `element` of packages/framework/index.ts (lines 31-54) and the
    two pieces of state it changes: the private `settings` slot of a class and the
    host's global custom-element registry. `element` has three call forms: applied
    to a class (the bare decorator), called with settings (it validates an explicit
    name and returns a decorator), and called with nothing (it returns itself). */
module Registrar {
  import opened Outcomes
  import opened TagNames

  /** The settings a caller passes: an optional explicit `name` and the host's
      definition options (`extends`, the native element a customised built-in
      element extends). */
  datatype SettingsArgs = SettingsArgs(name: Option<string>, extendsElement: Option<string>)

  /** What the `settings` slot of a registered class holds: the resolved name and
      the definition options. */
  datatype ElementSettings = ElementSettings(name: string, extendsElement: Option<string>)

  /** A custom-element class: its identifier (`Function.prototype.name`) and its
      private `settings` slot, empty until the class is decorated. */
  class ElementClass {
    const identifier: string
    var settings: Option<ElementSettings>

    constructor (identifier: string)
      ensures this.identifier == identifier && settings == None
    {
      this.identifier := identifier;
      settings := None;
    }
  }

  /** The errors the registrar throws or lets through. */
  datatype Error =
    | Naming(cause: NamingError)           // tagName found no dash (line 23)
    | ExplicitNameLacksDash(name: string)  // an explicit name without a dash (line 42)
    | DuplicateName(name: string)          // define refused a name already defined
    | NotCallable                          // the bare form returns nothing to apply

  /** What the host registry keeps for a defined name. */
  datatype Definition = Definition(ctor: ElementClass, options: Option<SettingsArgs>)

  /** One call of `customElements.define(name, ctor, options)`. */
  datatype DefineCall = DefineCall(name: string, ctor: ElementClass, options: Option<SettingsArgs>)

  /** The host's `customElements`: a map from names to definitions. `Define`
      inserts, and refuses a name that is already defined. */
  class CustomElementRegistry {
    var definitions: map<string, Definition>
    /** Every call of `Define`, in order, whether it succeeded or not. */
    ghost var calls: seq<DefineCall>

    constructor ()
      ensures definitions == map[] && calls == []
    {
      definitions := map[];
      calls := [];
    }

    /** Every defined name holds a dash. */
    ghost predicate AllNamesDashed()
      reads this
    {
      forall n :: n in definitions ==> '-' in n
    }

    method Define(name: string, ctor: ElementClass, options: Option<SettingsArgs>)
      returns (r: Outcome<Error>)
      modifies this
      ensures calls == old(calls) + [DefineCall(name, ctor, options)]
      ensures name in old(definitions) ==>
                r == Fail(DuplicateName(name)) && definitions == old(definitions)
      ensures name !in old(definitions) ==>
                r == Pass && definitions == old(definitions)[name := Definition(ctor, options)]
    {
      calls := calls + [DefineCall(name, ctor, options)];
      if name in definitions {
        r := Fail(DuplicateName(name));
      } else {
        definitions := definitions[name := Definition(ctor, options)];
        r := Pass;
      }
    }
  }

  /** The argument of `element`: a class, a settings object, or nothing. */
  datatype Arg = Target(ctor: ElementClass) | Settings(args: SettingsArgs) | Omitted

  /** What `element` returns: nothing (the bare form), the decorator closing
      over the settings, or `element` itself. */
  datatype Returned = Nothing | Decorator(args: SettingsArgs) | ElementItself

  function ArgClasses(arg: Arg): set<object> {
    if arg.Target? then {arg.ctor} else {}
  }

  /** Whether `element` threw, and what. */
  function Thrown<T>(r: Result<T, Error>): Outcome<Error> {
    if r.Failure? then Fail(r.error) else Pass
  }

  /** The check of lines 40-44: an explicit name, when present, holds a dash. */
  predicate ExplicitNameValid(args: SettingsArgs) {
    args.name.Some? ==> '-' in args.name.value
  }

  /** `args.name ?? tagName(ctor)` (line 47): an explicit name never fails, and a
      name that passed the check of lines 40-44 or was derived holds a dash. */
  function DecoratedName(args: SettingsArgs, identifier: string): (r: Result<string, Error>)
    ensures ExplicitNameValid(args) && r.Success? ==> '-' in r.value
    ensures r.Failure? <==> args.name.None? && TagName(identifier).Failure?
  {
    match args.name
    case Some(name) => Success(name)
    case None =>
      match TagName(identifier)
      case Success(name) => Success(name)
      case Failure(e) => Failure(Naming(e))
  }

  /** One `define(name, ctor, options)` call was made, with its effect on the
      registry: a new entry, or a refusal that leaves the entries as they were. */
  twostate predicate DefinedOnce(registry: CustomElementRegistry, name: string, ctor: ElementClass,
                                 options: Option<SettingsArgs>, new outcome: Outcome<Error>)
    reads registry
  {
    registry.calls == old(registry.calls) + [DefineCall(name, ctor, options)] &&
    if name in old(registry.definitions) then
      outcome == Fail(DuplicateName(name)) && registry.definitions == old(registry.definitions)
    else
      outcome == Pass && registry.definitions == old(registry.definitions)[name := Definition(ctor, options)]
  }

  /** The bare form (lines 34-38): derive the name; if that fails, throw with
      neither the slot nor the registry touched; otherwise store `{name}` in the
      slot, then define the class under that name without options. */
  twostate predicate BareEffect(registry: CustomElementRegistry, ctor: ElementClass, new outcome: Outcome<Error>)
    reads registry, ctor
  {
    match TagName(ctor.identifier)
    case Failure(e) =>
      outcome == Fail(Naming(e)) && unchanged(registry, ctor)
    case Success(name) =>
      ctor.settings == Some(ElementSettings(name, None)) &&
      DefinedOnce(registry, name, ctor, None, outcome)
  }

  /** The decorator of lines 46-50: the name is the explicit one or the derived
      one; if derivation fails, throw with nothing touched; otherwise store the
      settings with the name put in, then define the class under that name with
      the original settings as options. */
  twostate predicate DecoratorEffect(registry: CustomElementRegistry, args: SettingsArgs,
                                     ctor: ElementClass, new outcome: Outcome<Error>)
    reads registry, ctor
  {
    match DecoratedName(args, ctor.identifier)
    case Failure(e) =>
      outcome == Fail(e) && unchanged(registry, ctor)
    case Success(name) =>
      ctor.settings == Some(ElementSettings(name, args.extendsElement)) &&
      DefinedOnce(registry, name, ctor, Some(args), outcome)
  }

  /** Lines 37-38 and 48-49: write the slot, then call define. The slot is
      written first, so it stays written when define refuses the name. */
  method Register(registry: CustomElementRegistry, ctor: ElementClass, stored: ElementSettings,
                  options: Option<SettingsArgs>)
    returns (r: Outcome<Error>)
    modifies registry, ctor
    ensures ctor.settings == Some(stored)
    ensures DefinedOnce(registry, stored.name, ctor, options, r)
    ensures ctor.settings.value.name == registry.calls[|registry.calls| - 1].name
  {
    ctor.settings := Some(stored);
    r := registry.Define(stored.name, ctor, options);
  }

  /** `element(args)` (lines 31-54). */
  method Element(registry: CustomElementRegistry, arg: Arg) returns (r: Result<Returned, Error>)
    modifies registry, ArgClasses(arg)
    ensures arg.Target? ==> BareEffect(registry, arg.ctor, Thrown(r)) && (r.Success? ==> r.value == Nothing)
    ensures arg.Settings? ==>
              unchanged(registry) &&
              if ExplicitNameValid(arg.args) then r == Success(Decorator(arg.args))
              else r == Failure(ExplicitNameLacksDash(arg.args.name.value))
    ensures arg.Omitted? ==> unchanged(registry) && r == Success(ElementItself)
    ensures old(registry.AllNamesDashed()) ==> registry.AllNamesDashed()
  {
    match arg
    case Target(ctor) =>
      var name := TagName(ctor.identifier);
      if name.Failure? {
        return Failure(Naming(name.error));
      }
      var defined := Register(registry, ctor, ElementSettings(name.value, None), None);
      r := if defined.Fail? then Failure(defined.error) else Success(Nothing);
    case Settings(args) =>
      if args.name.Some? && '-' !in args.name.value {
        return Failure(ExplicitNameLacksDash(args.name.value));
      }
      r := Success(Decorator(args));
    case Omitted =>
      r := Success(ElementItself);
  }

  /** The closure returned at lines 46-50, applied to a class. */
  method Decorate(registry: CustomElementRegistry, args: SettingsArgs, ctor: ElementClass)
    returns (r: Outcome<Error>)
    modifies registry, ctor
    ensures DecoratorEffect(registry, args, ctor, r)
    ensures ExplicitNameValid(args) && old(registry.AllNamesDashed()) ==> registry.AllNamesDashed()
  {
    var name := DecoratedName(args, ctor.identifier);
    if name.Failure? {
      return Fail(name.error);
    }
    r := Register(registry, ctor, ElementSettings(name.value, args.extendsElement), Some(args));
  }

  /** Applying what `element(...)` returned to a class, as `@element(...)` does:
      the decorator registers, `element` itself behaves as the bare form, and the
      nothing the bare form returns cannot be called. */
  method Apply(registry: CustomElementRegistry, f: Returned, ctor: ElementClass)
    returns (r: Outcome<Error>)
    modifies registry, ctor
    ensures f.Nothing? ==> r == Fail(NotCallable) && unchanged(registry, ctor)
    ensures f.Decorator? ==> DecoratorEffect(registry, f.args, ctor, r)
    ensures f.ElementItself? ==> BareEffect(registry, ctor, r)
  {
    match f
    case Nothing =>
      r := Fail(NotCallable);
    case Decorator(args) =>
      r := Decorate(registry, args, ctor);
    case ElementItself =>
      var e := Element(registry, Target(ctor));
      r := if e.Failure? then Fail(e.error) else Pass;
  }
}
