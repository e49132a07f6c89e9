# Custom-element registration in Dafny

This project models `packages/framework/index.ts`, the registration layer for
Web Components (custom elements, section 4.13 of the WHATWG HTML Standard).
The file has two parts:

- `tagName` derives a custom-element name from a class identifier.
  It performs one regular-expression replace, lowercases the result and
  refuses a result that has no dash.
- `element` is the registrar, with three call forms:
  - Applied to a class (bare form), it derives the name, writes `{ name }` into
    the class's private `settings` slot and calls `customElements.define`.
  - Called with settings, it first checks an explicit `name` for a dash. It then
    returns a decorator. The decorator uses the explicit or derived name, stores
    the settings with that name in the slot and calls `define` with the settings
    as options.
  - Called with nothing, it returns `element` itself.

Modules, one per file:

- `Outcomes` (Outcomes.dfy): `Option`, `Result` and `Outcome` values. They stand
  for the source's `undefined`, its returned values and its exceptions.
- `TagNames` (TagNames.dfy): `tagName`, as pure functions with lemmas.
  - The left-hand class of the regular expression on line 21 is `[a-z0â€“9]`.
    The three characters between `0` and `9` are a mis-encoded en dash
    (U+00E2, U+20AC, U+201C), not an ASCII hyphen.
  - So the class is not a range. It is `a`-`z` plus `0`, `9` and those three
    characters, and `IsLeftClass` says exactly that. The digits 1-8 never take a
    dash.
  - The replace is not global, so only the leftmost match gets a dash:
    `XuiButtonGroup` becomes `xui-buttongroup`.
- `Registrar` (Registrar.dfy): `element` and the decorator it returns, as methods
  over two pieces of mutable state.
  - `ElementClass` is a class with an immutable `identifier` (the class's
    `name`) and a mutable `settings` slot.
  - `CustomElementRegistry` stands for the host's `customElements`. It is a
    `definitions` map from names to definitions. `Define` inserts a definition
    and refuses a name that is already defined.
  - A ghost `calls` log records every `define` call, so the contracts can say
    that exactly one call was made and with which name.
- `Examples` (Examples.dfy): the two decorated classes of lines 56-64 and further
  examples of the name derivation.

Two consequences of the code:

- Only the first left-class-to-upper-case pair gets a dash, so `XuiButtonGroup`
  becomes `xui-buttongroup`. The left-hand class holds no digit other than `0`
  and `9` (see above).
- The slot is written (lines 37, 48) before `define` is called (lines 38, 49),
  so a refused duplicate name leaves the slot written (`Register`,
  `RefusedDefineLeavesSlotWritten`).

## Model

| member | source | states |
|---|---|---|
| `TagNames.FirstTransitionFrom` | packages/framework/index.ts:21 | the result is the leftmost position at or after `from` where a left-class character is followed by an upper-case ASCII letter; `None` means there is no such position |
| `TagNames.FirstTransition` | packages/framework/index.ts:21 | the position of the first match of the regular expression, if any; `None` exactly when the identifier has no match |
| `TagNames.TagName` | packages/framework/index.ts:20-26 | a derived name always contains a dash and equals its own lowercase form; a failure carries the identifier and a derived name with no dash |
| `TagNames.TagNameAtFirstTransition` | packages/framework/index.ts:21 | when the first match starts at position i, the name is the lowercased identifier with one dash between positions i and i + 1 |
| `TagNames.TagNameWithoutTransition` | packages/framework/index.ts:21-25 | with no match, the name is the lowercased identifier; it succeeds exactly when the identifier already contains a dash |
| `TagNames.TagNameSucceedsIff` | packages/framework/index.ts:21-25 | `tagName` succeeds if and only if the identifier has a match or already contains a dash |
| `TagNames.TagNameAddsOneDash` | packages/framework/index.ts:21 | only the first match gets a dash: the name has exactly one dash more than the identifier when there is a match, and the same number otherwise |
| `TagNames.LowerKeepsDashes` | packages/framework/index.ts:21 | lowercasing keeps every dash in place and creates none |
| `TagNames.DashesLower` | packages/framework/index.ts:21 | lowercasing does not change the number of dashes |
| `Registrar.DecoratedName` | packages/framework/index.ts:47 | `args.name ?? tagName(ctor)` fails only when there is no explicit name and derivation fails; when the explicit name passed the check on lines 40-44, the result contains a dash |
| `Registrar.CustomElementRegistry.Define` | packages/framework/index.ts:38 | one call is logged; a name already defined is refused with the definitions unchanged; otherwise exactly that name is added, for that class and those options |
| `Registrar.Register` | packages/framework/index.ts:37-38 | the slot holds the given settings, exactly one define call is made with the slot's name, and the registry changes as `Define` says, even when define refuses |
| `Registrar.Element` | packages/framework/index.ts:33-54 | bare form: a failed derivation throws with the slot, the registry and the call log untouched; otherwise the slot is `{name}` and one define call is made with that name and no options. Settings form: an explicit name without a dash throws, otherwise the decorator is returned; either way nothing changes. No argument: returns `element` itself and changes nothing. Keeps every defined name dashed |
| `Registrar.Decorate` | packages/framework/index.ts:46-50 | the name is the explicit or the derived one; a failed derivation throws with nothing touched; otherwise the slot holds the settings with that name and one define call is made with that name and the original settings; keeps every defined name dashed when the settings passed the check |
| `Registrar.Apply` | packages/framework/index.ts:51-53 | applying the decorator gives the decorator's effect; applying the `element` returned by the no-argument form gives exactly the bare form's effect; the nothing returned by the bare form cannot be applied |
| `Examples.TagNameOfXuiButton` | packages/framework/index.ts:56-58 | `XuiButton` derives `xui-button` |
| `Examples.TagNameOfXuiButtonGroup` | packages/framework/index.ts:21 | `XuiButtonGroup` derives `xui-buttongroup`: the second transition gets no dash |
| `Examples.TagNameOfItem9Group` | packages/framework/index.ts:21 | `9` is in the left-hand class: `Item9Group` derives `item9-group` |
| `Examples.TagNameRefusesButton` | packages/framework/index.ts:21-24 | `Button` derives `button`, which is refused |
| `Examples.TagNameRefusesXUI` | packages/framework/index.ts:21-24 | the all-capitals `XUI` derives `xui`, which is refused |
| `Examples.TagNameRefusesItem2Group` | packages/framework/index.ts:21-24 | `2` is not in the left-hand class: `Item2Group` derives `item2group`, which is refused |
| `Examples.DecorateXuiButton` | packages/framework/index.ts:56-58 | `@element` on `XuiButton` stores `{ name: "xui-button" }` and defines that one name without options |
| `Examples.DecorateButton2` | packages/framework/index.ts:60-64 | `@element({ name: "xui-button2" })` on `Button2` stores that name and defines it with the settings as options |
| `Examples.DecorateWithNoSettings` | packages/framework/index.ts:51-53 | `element()` returns `element`, and applying it to `XuiButton` registers `xui-button` |
| `Examples.DecorateTwiceIsRefused` | packages/framework/index.ts:38 | decorating the same class twice is refused as a duplicate name, and `xui-button` still maps to the class with no options |
| `Examples.RefusedNames` | packages/framework/index.ts:40-44 | an explicit `"button"` throws before any decorator exists; `@element` on `Button` throws; in both cases no slot is written and nothing is defined |
| `Examples.RefusedDefineLeavesSlotWritten` | packages/framework/index.ts:37-38 | a second class that derives `xui-button` is refused, its slot still holds `xui-button`, and the registry keeps the first class |

## Left out

- The DOM, `HTMLElement`, lifecycle callbacks and rendering are not modelled. They belong to the host.
- A template cache and shadow-root creation do not appear in `packages/framework/index.ts` and are not part of this model. Neither is a name derivation that treats a run of capitals as one word.
- `CustomElementRegistry.Define` checks only for a duplicate name. The host's other checks are not modelled: the valid-custom-element-name grammar, a constructor that is already defined, and the validity of `extends`. The registry is a map insertion that fails on a duplicate name.
- `ToLower`: maps only the ASCII letters `A`-`Z`. Other characters stay unchanged, whereas `toLowerCase` also maps non-ASCII upper-case letters. Full Unicode case mapping is outside the model.
- The regular expression is modelled over characters, not over UTF-16 code units. The five single characters of the class are all in the Basic Multilingual Plane, so the two agree on them.
- The TypeScript overload signatures, the interfaces and the global `Object` augmentation keyed by the `settings` symbol are type-level scaffolding (lines 2-18, 28-32). The slot is a field of `ElementClass`.
- Error-message text (lines 23 and 42) is not modelled. Each error is a distinct `Error` constructor that carries the offending names.
- The settings object has only `name` and `extends` (the latter as `extendsElement`). Other definition options that the spread on line 48 would copy are not modelled.
- A `name` key that is present with the value `undefined` would raise a `TypeError` on line 41. A present name is a string here (`Option<string>`).
- The decorator closure reads `args` by reference, so a settings object changed after `element(args)` returns would reach `define` unchecked. `Decorate` takes any settings and does not re-check the name, which covers that case. Only its "names stay dashed" clause is conditional on the check of lines 40-44.
