/** The worked examples of packages/framework/index.ts (lines 56-64) and further
    examples of the name derivation: one transition, a later transition that gets
    no dash, digits next to letters, a single word and an all-capitals word. Each
    example first computes the replace and the lowercasing, then puts them together. */
module Examples {
  import opened Outcomes
  import opened TagNames
  import opened Registrar

  lemma StepsOfXuiButton()
    ensures ReplaceFirst("XuiButton") == "Xui-Button" && ToLower("Xui-Button") == "xui-button"
  {
    assert FirstTransition("XuiButton") == Some(2);
  }

  /** The class of line 57 derives the name `xui-button`. */
  lemma TagNameOfXuiButton()
    ensures TagName("XuiButton") == Success("xui-button")
  {
    StepsOfXuiButton();
  }

  lemma ReplaceOfXuiButtonGroup()
    ensures ReplaceFirst("XuiButtonGroup") == "Xui-ButtonGroup"
  {
    assert FirstTransition("XuiButtonGroup") == Some(2);
  }

  lemma LowerOfXuiButtonGroup()
    ensures ToLower("Xui-ButtonGroup") == "xui-buttongroup"
  {
  }

  /** Only the first transition gets a dash: `xui-buttongroup`, not `xui-button-group`. */
  lemma TagNameOfXuiButtonGroup()
    ensures TagName("XuiButtonGroup") == Success("xui-buttongroup")
  {
    ReplaceOfXuiButtonGroup();
    LowerOfXuiButtonGroup();
  }

  lemma StepsOfItem9Group()
    ensures ReplaceFirst("Item9Group") == "Item9-Group" && ToLower("Item9-Group") == "item9-group"
  {
    assert FirstTransition("Item9Group") == Some(4);
  }

  /** `9` is in the left-hand class, so it takes a dash before an upper-case letter. */
  lemma TagNameOfItem9Group()
    ensures TagName("Item9Group") == Success("item9-group")
  {
    StepsOfItem9Group();
  }

  lemma StepsOfButton()
    ensures ReplaceFirst("Button") == "Button" && ToLower("Button") == "button"
  {
    assert FirstTransition("Button") == None;
  }

  /** A single capitalised word has no transition and is refused. */
  lemma TagNameRefusesButton()
    ensures TagName("Button") == Failure(LacksDash("Button", "button"))
  {
    StepsOfButton();
  }

  lemma StepsOfXUI()
    ensures ReplaceFirst("XUI") == "XUI" && ToLower("XUI") == "xui"
  {
    assert FirstTransition("XUI") == None;
  }

  /** An all-capitals word has no lower-to-upper transition and is refused. */
  lemma TagNameRefusesXUI()
    ensures TagName("XUI") == Failure(LacksDash("XUI", "xui"))
  {
    StepsOfXUI();
  }

  lemma StepsOfItem2Group()
    ensures ReplaceFirst("Item2Group") == "Item2Group" && ToLower("Item2Group") == "item2group"
  {
    assert FirstTransition("Item2Group") == None;
  }

  /** The digits 1 to 8 are not in the left-hand class: `Item2Group` is refused. */
  lemma TagNameRefusesItem2Group()
    ensures TagName("Item2Group") == Failure(LacksDash("Item2Group", "item2group"))
  {
    StepsOfItem2Group();
  }

  /** Lines 56-58: `@element` on `XuiButton` stores `{ name: "xui-button" }` in
      its slot and defines it under that name without options. */
  method DecorateXuiButton() returns (slot: Option<ElementSettings>, defined: map<string, Definition>)
    ensures slot == Some(ElementSettings("xui-button", None))
    ensures defined.Keys == {"xui-button"} && defined["xui-button"].options == None
  {
    var registry := new CustomElementRegistry();
    var xui := new ElementClass("XuiButton");
    TagNameOfXuiButton();
    var bare := Element(registry, Target(xui));
    slot, defined := xui.settings, registry.definitions;
  }

  /** Lines 60-64: `@element({ name: "xui-button2" })` on `Button2` defines it
      under the explicit name, with the settings as options. */
  method DecorateButton2() returns (slot: Option<ElementSettings>, defined: map<string, Definition>)
    ensures slot == Some(ElementSettings("xui-button2", None))
    ensures defined.Keys == {"xui-button2"}
    ensures defined["xui-button2"].options == Some(SettingsArgs(Some("xui-button2"), None))
  {
    var registry := new CustomElementRegistry();
    var b2 := new ElementClass("Button2");
    var args := SettingsArgs(Some("xui-button2"), None);
    var decorator := Element(registry, Settings(args));
    var applied := Apply(registry, decorator.value, b2);
    slot, defined := b2.settings, registry.definitions;
  }

  /** `@element()` on `XuiButton`: `element()` returns `element` itself with
      nothing registered, and applying it registers as the bare form does. */
  method DecorateWithNoSettings() returns (itself: Result<Returned, Error>, applied: Outcome<Error>,
                                          slot: Option<ElementSettings>, defined: set<string>)
    ensures itself == Success(ElementItself)
    ensures applied == Pass
    ensures slot == Some(ElementSettings("xui-button", None)) && defined == {"xui-button"}
  {
    var registry := new CustomElementRegistry();
    var xui := new ElementClass("XuiButton");
    TagNameOfXuiButton();
    itself := Element(registry, Omitted);
    applied := Apply(registry, itself.value, xui);
    slot, defined := xui.settings, registry.definitions.Keys;
  }

  /** Decorating `XuiButton` a second time is refused by the registry as a
      duplicate name; the registry keeps the first definition. */
  method DecorateTwiceIsRefused() returns (second: Result<Returned, Error>, keptFirst: bool)
    ensures second == Failure(DuplicateName("xui-button"))
    ensures keptFirst
  {
    var registry := new CustomElementRegistry();
    var xui := new ElementClass("XuiButton");
    TagNameOfXuiButton();
    var first := Element(registry, Target(xui));
    second := Element(registry, Target(xui));
    keptFirst := registry.definitions == map["xui-button" := Definition(xui, None)];
  }

  /** `@element({ name: "button" })` throws when the settings are read, before
      any decorator exists; `@element` on `Button` throws with the class untouched. */
  method RefusedNames() returns (explicit: Result<Returned, Error>, derived: Result<Returned, Error>,
                                 slot: Option<ElementSettings>, defined: set<string>)
    ensures explicit == Failure(ExplicitNameLacksDash("button"))
    ensures derived == Failure(Naming(LacksDash("Button", "button")))
    ensures slot == None && defined == {}
  {
    var registry := new CustomElementRegistry();
    explicit := Element(registry, Settings(SettingsArgs(Some("button"), None)));
    var button := new ElementClass("Button");
    TagNameRefusesButton();
    derived := Element(registry, Target(button));
    slot := button.settings;
    defined := registry.definitions.Keys;
  }

  /** The slot is written before define is called (lines 37-38): a second class
      whose identifier also derives `xui-button` is refused by the registry, yet
      its slot already holds that name while the registry keeps the first class. */
  method RefusedDefineLeavesSlotWritten()
    returns (refused: Result<Returned, Error>, slot: Option<ElementSettings>, keptFirst: bool)
    ensures refused == Failure(DuplicateName("xui-button"))
    ensures slot == Some(ElementSettings("xui-button", None))
    ensures keptFirst
  {
    var registry := new CustomElementRegistry();
    var first := new ElementClass("XuiButton");
    var other := new ElementClass("XuiButton");
    TagNameOfXuiButton();
    var ok := Element(registry, Target(first));
    refused := Element(registry, Target(other));
    slot := other.settings;
    keptFirst := registry.definitions["xui-button"].ctor == first;
  }
}
