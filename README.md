# Block Kit builder core, modelled in Dafny

This project models the core of a PHP library that builds the JSON "blocks"
of Slack's Block Kit: the surfaces (messages and modals), the blocks in them
(sections, actions, virtual blocks), their elements and partials (texts,
options and option groups, confirmation dialogs, checkboxes, overflow menus,
text inputs, field lists, rich-text lists and text runs), and the mrkdwn
`Formatter`.

Every element of the library has the same life cycle, and the model follows it:

- the element is built through fluent setters that change its fields in place
  (modelled as Dafny classes whose methods state the whole new state);
- `validate` throws the first problem it meets (modelled as an `Outcome` whose
  `Fail` case carries one error per distinct exception message);
- `toArray` serialises a valid element to a PHP array (modelled as an ordered
  dictionary, `Wire.Dict`, where `$a[$k] = $v` is `Put` and `$a + $b` is `Union`);
- `fromArray` / `hydrate` rebuild an element from such an array through
  `HydrationData`, which records the keys it has consumed; whatever is left
  becomes the element's extra fields.

The pure parts of the library, such as the type map between class names and
type tags, text objects, options and the `Formatter`, are modelled as
datatypes and functions. Each loop of the source is a method with
invariants, proved against a specification function.

Most properties state what each operation means:

- validation passes exactly when the documented limits hold;
- serialisation writes each part under its own key;
- hydration reads back what serialisation wrote, so there are round trips for
  texts, options, confirmation dialogs, field lists and text inputs;
- escaping and unescaping in the formatter are inverse;
- `sub` replaces its placeholders and leaves other text alone;
- the list helpers keep every line.

Blocks and elements that live outside this core appear in containers as a
`Child` summary (class, block and action ids, their own validation outcome
and array). Readers of foreign elements (`fromArray` of an
option group, a dispatch-action configuration or a rich-text section) and the
kit's configuration defaults are parameters.

Two consequences of the code as written are kept in the model:

- an overflow menu's `validate` calls `$this->confirm->validate()` without a
  null check, so an overflow menu without a confirmation dialog fails
  validation (as a call on null);
- the rich-text list and rich-text text classes have no entry in the type
  map, so once `validate` passes their `toArray` fails in `getType`.

## Model

| member | source | states |
|---|---|---|
| `Classes.ParentIsAbstract` | src/Element.php:10 | every class another class extends is abstract, and a parent sits one step nearer to `Element` |
| `Classes.ConcreteHasNoSubclass` | src/Partials/Option.php:12 | a concrete class has no subclass: the only concrete class that is-a concrete class is itself |
| `Classes.ParentIsText` | src/Partials/Text.php:9 | only `PlainText` and `MrkdwnText` extend the abstract `Text` |
| `Classes.TextFamily` | src/Partials/Text.php:9 | whatever is-a `Text` is `Text`, `PlainText` or `MrkdwnText` |
| `Types.SurfaceBlocks` | src/Type.php:61-107 | a block list is defined exactly for the five surface tags |
| `Types.MapClass` | src/Type.php:234-241 | `mapClass` succeeds exactly for registered classes and then returns their tag; otherwise it fails with 'No type for class' |
| `Types.MapType` | src/Type.php:243-251 | a failing `mapType` fails with 'No class for type' for that tag |
| `Types.TagsOfRegisteredClasses` | src/Type.php:180-232 | the tag of every registered class is one of the known tags |
| `Types.MapTypeRejectsUnknownTags` | src/Type.php:243-251 | `mapType` throws 'No class for type' for a tag no class is registered under |
| `Types.MapTypeAcceptsKnownTags` | src/Type.php:243-251 | `mapType` resolves every tag some class is registered under |
| `Types.SectionMapsToSection` | src/Type.php:196-199 | `TwoColumnTable` shares the tag 'section', and `mapType('section')` finds `Section`, registered first |
| `Types.InvertsSurfacesAndBlocks` | src/Type.php:182-195 | `mapType(mapClass(c)) == c` for the surfaces and the blocks up to `Input` |
| `Types.InvertsInputs` | src/Type.php:196-208 | `mapType(mapClass(c)) == c` for `Section` and the input elements up to `TimePicker` |
| `Types.InvertsMultiMenus` | src/Type.php:209-215 | `mapType(mapClass(c)) == c` for `NumberInput` and four multi-select menus |
| `Types.InvertsMenus` | src/Type.php:216-220 | `mapType(mapClass(c)) == c` for the users multi-select menu and four select menus |
| `Types.InvertsPartials` | src/Type.php:221-226 | `mapType(mapClass(c)) == c` for the users select menu, `Confirm`, `DispatchActionConfig` and `Fields` |
| `Types.InvertsTexts` | src/Type.php:227-231 | `mapType(mapClass(c)) == c` for `Filter`, the texts, `Option` and `OptionGroup` |
| `Types.MapTypeInvertsMapClass` | src/Type.php:234-251 | `mapType` inverts `mapClass` on every registered class except `TwoColumnTable` |
| `Types.SearchTypeMap` | src/Type.php:196-199 | the search never finds `TwoColumnTable`, whose tag 'section' belongs to `Section`, registered first |
| `Types.SurfaceRestrictions` | src/Type.php:61-97 | App Home accepts neither input nor file blocks; a message accepts file but not input blocks; a modal accepts input blocks |
| `Types.ActionElementsAreAccessories` | src/Type.php:109-143 | every element allowed in an actions block is also allowed as a section accessory |
| `Hydration.Without` | src/HydrationData.php:88-91 | `array_diff_key` keeps only entries of the data, none under a consumed key |
| `Hydration.WithoutLookup` | src/HydrationData.php:88-91 | a consumed key is gone from the extras; any other key keeps its value |
| `Hydration.ExtraComplete` | src/HydrationData.php:88-91 | every entry under an unconsumed key is kept in the extras |
| `Hydration.WithoutDistinct` | src/HydrationData.php:88-91 | the extras of data without repeated keys repeat no key |
| `Hydration.ReadString` | src/HydrationData.php:28-49 | an unset key reads as nothing; a set string reads as itself; any other set value is a type error for a `string` parameter |
| `Hydration.ReadBool` | src/HydrationData.php:28-49 | an unset key reads as nothing; a set boolean reads as itself; any other set value is a type error for a `bool` parameter |
| `Hydration.IntUnder` | src/Inputs/TextInput.php:184-190 | an unset key reads as nothing; a non-integer is a type error; an integer below the least allowed fails with the setter's error; otherwise it reads as itself |
| `Hydration.HydrationData.constructor` | src/HydrationData.php:20-26 | wraps the data with nothing consumed |
| `Hydration.HydrationData.Has` | src/HydrationData.php:28-31 | `isset`: true exactly when the key is present and its value is not null |
| `Hydration.HydrationData.Get` | src/HydrationData.php:36-39 | the value under a set key, the default otherwise |
| `Hydration.HydrationData.UseValue` | src/HydrationData.php:44-49 | marks the key consumed and returns what `get` returns |
| `Hydration.HydrationData.UseArray` | src/HydrationData.php:54-65 | with no key, consumes every key and returns the values as a list; with a key, consumes it and returns its array, or an empty list when unset |
| `Hydration.HydrationData.UseElements` | src/HydrationData.php:70-73 | the same as `useArray` |
| `Hydration.HydrationData.UseElement` | src/HydrationData.php:78-83 | consumes the key and returns its array, or nothing when unset |
| `Hydration.HydrationData.GetExtra` | src/HydrationData.php:88-91 | returns exactly the entries under keys not consumed |
| `Hydration.UseString` | src/HydrationData.php:44-49 | reads a string as `ReadString` does and consumes the key only when it is set |
| `Hydration.UseBool` | src/HydrationData.php:44-49 | reads a boolean as `ReadBool` does and consumes the key only when it is set |
| `Elements.Emit` | src/Element.php:113-115 | an extra that is a plain value is written as it is; an element extra is written as its own array, or its failure propagates |
| `Elements.WriteExtrasFails` | src/Element.php:113-115 | writing the extras succeeds exactly when every element extra serialises |
| `Elements.WriteExtrasLookup` | src/Element.php:113-115 | each extra key holds its emitted value afterwards, and every other key keeps its value |
| `Elements.WriteExtras` | src/Element.php:113-115 | a failure to write the extras is the failure of one of the extras |
| `Elements.BaseArray` | src/Element.php:106-118 | `toArray` fails with the validation error first, and with 'No type for class' for an unregistered class |
| `Elements.TypeKeyUnlessHidden` | src/Element.php:109-111 | a produced array carries 'type' exactly when the tag is not one of the hidden types |
| `Elements.ExtrasCopied` | src/Element.php:113-115 | every extra appears in the produced array with its emitted value |
| `Elements.ElementBase.constructor` | src/Element.php:25-28 | a new element has no parent and no extras |
| `Elements.ElementBase.Tag` | src/Element.php:45-48 | `getType` is `mapClass` of the element's class |
| `Elements.ElementBase.SetParent` | src/Element.php:38-43 | sets the parent and leaves the extras alone |
| `Elements.ElementBase.SetExtra` | src/Element.php:56-61 | the key holds the new value, every other extra keeps its value, the parent is unchanged |
| `Elements.ElementBase.Tap` | src/Element.php:74-79 | runs the callable on the element and returns the element itself, with the fields the callable leaves |
| `Elements.ElementBase.TapIf` | src/Element.php:92-99 | runs the callable only when the condition is true (then the fields are what it leaves, otherwise unchanged) and returns the element itself |
| `Elements.ElementBase.ToArray` | src/Element.php:106-118 | a failed validation is what `toArray` fails with |
| `Elements.ElementBase.Hydrate` | src/Element.php:180-194 | consumes 'type'; the outcome is the tag check, then the extras copied from the unconsumed keys; on success the extras are exactly those |
| `Elements.ElementBase.SetExtras` | src/Element.php:189-191 | the `foreach` of `setExtra`: succeeds exactly when every value can be held, and then the extras are the old ones with all of them written |
| `Elements.AddExtras` | src/Element.php:189-191 | the only way copying extras fails is a type error |
| `Elements.AddExtrasLookup` | src/Element.php:189-191 | each copied key holds its value afterwards, every other key keeps the old one |
| `Elements.TagCheck` | src/Element.php:182-187 | a non-string type passes; an unknown tag fails with 'No class for type'; a known tag passes exactly when it maps to the class itself |
| `Elements.CastToString` | src/Element.php:162 | `(string)` leaves a string unchanged |
| `Elements.ResolveClass` | src/Element.php:152-168 | the resolved class is concrete and is-a the expected class; without a type it is the expected class; with a type it is the mapped class |
| `Elements.ResolveClassMismatch` | src/Element.php:163-167 | a mapped class that is not a subclass of the expected one is refused with 'Element class mismatch' |
| `Elements.ChildrenVerdict` | src/Blocks/Virtual/VirtualBlock.php:82-84 | the children pass exactly when each one passes; otherwise the failure is some child's own |
| `Elements.ValidateChildren` | src/Blocks/Virtual/VirtualBlock.php:82-84 | the loop over children gives the verdict of `ChildrenVerdict` |
| `Elements.ChildValue` | src/Element.php:114 | a child is written as its own array, or its failure propagates |
| `Elements.WithBlockIdKey` | src/Blocks/BlockElement.php:37-39 | 'block_id' is written exactly when the id is set and not empty |
| `Elements.WithActionIdKey` | src/Inputs/InputElement.php:43-45 | 'action_id' is written exactly when the id is set and not empty |
| `Elements.AsOptBool` | src/Partials/PlainText.php:30-35 | a `?bool` parameter takes null as nothing and a boolean as itself; anything else is a type error |
| `Texts.ValidateString` | src/Partials/Text.php:43-56 | fails 'must have a "text" value' when unset, 'at least min' when shorter, 'at most max' when longer than a given max; passes exactly when the length is within the bounds |
| `Texts.TextObject.Cls` | src/Partials/Text.php:9 | a text object's class is a concrete subclass of `Text` |
| `Texts.TextObject.Validate` | src/Partials/Text.php:20-23 | `validate` is `validateString` with no max and min 1: it passes exactly for a set, non-empty text |
| `Texts.TextObject.ValidateWithLength` | src/Partials/Text.php:31-34 | `validateWithLength` is `validateString` of the text with the given bounds |
| `Texts.TextObject.WithText` | src/Partials/Text.php:13-18 | sets the text and nothing else |
| `Texts.TextObject.ToArray` | src/Partials/Text.php:58-61 | a text that fails validation fails to serialise with that error; one that serialises is valid |
| `Texts.TextKeyInOutput` | src/Partials/Text.php:58-61 | a serialised text carries 'text' with its text (`+` keeps it, since the base array has no 'text') |
| `Texts.NewPlain` | src/Partials/PlainText.php:17-25 | `new PlainText` stores the text and the given emoji flag, or the configured default when none is given |
| `Texts.NewMrkdwn` | src/Partials/MrkdwnText.php:17-25 | `new MrkdwnText` stores the text and the given verbatim flag, or the configured default when none is given |
| `Texts.ConcreteTextClass` | src/Element.php:160-171 | a concrete class resolved for a text is `PlainText` or `MrkdwnText`, and the expected one unless `Text` was expected |
| `Texts.FromData` | src/Element.php:152-175 | `fromArray` for a text: class resolution fails first; a result has the resolved class and format and is valid |
| `Texts.TextUnder` | src/Inputs/TextInput.php:192-194 | an optional text under a key: unset reads as none, a non-array is a type error, a read text is valid and of the expected format |
| `Texts.TextUnderReadsBack` | src/Partials/Text.php:58-68 | a valid text stored under a key, as serialised, reads back as itself |
| `Texts.UseText` | src/Inputs/TextInput.php:192-194 | reads as `TextUnder` and consumes the key only when it is set |
| `Texts.Hydrated` | src/Partials/Text.php:63-68 | a hydrated text has the format, is valid, took its text and flag from the data, and its extras are the unconsumed keys |
| `Texts.Completed` | src/Element.php:189-193 | the last step of hydration: extras copied from the unconsumed keys, then a non-empty text required |
| `Texts.HydratedExtras` | src/Element.php:189-191 | a hydrated text holds none of its own keys as an extra |
| `Texts.FromArray` | src/Element.php:152-175 | the method reading a text gives `FromData` |
| `Texts.Hydrate` | src/Partials/Text.php:63-68 | the method hydrating a text gives `Hydrated` |
| `Texts.Complete` | src/Element.php:189-193 | the method finishing hydration gives `Completed` |
| `Texts.ExtrasAvoidConsumed` | src/HydrationData.php:88-91 | extras copied after consuming a key never hold that key |
| `Texts.AddExtrasKeys` | src/Element.php:189-191 | the keys after copying extras are the old keys and the copied ones |
| `Texts.ToArrayShape` | src/Partials/PlainText.php:37-46 | a valid text without extras serialises to its type, its text and its flag when set |
| `Texts.TextBase` | src/Element.php:106-118 | for a valid text without extras the base array is just its type |
| `Texts.RoundTrip` | src/Partials/Text.php:58-68 | a valid text without extras serialises, and `fromArray` of the result, as its own class or as `Text`, gives it back |
| `Texts.SerialisedRoundTrip` | src/Partials/Text.php:58-68 | `fromArray` of the serialised form gives the text back |
| `Texts.ResolvesToOwnClass` | src/Element.php:160-168 | the serialised type resolves to the text's own class |
| `Texts.SerialisedEntries` | src/Partials/PlainText.php:37-46 | the serialised form holds type, text and flag under their keys and nothing else |
| `Texts.HydratesBack` | src/Partials/Text.php:63-68 | hydrating the serialised form gives the text back |
| `Texts.FormatTagMaps` | src/Type.php:228-231 | 'plain_text' and 'mrkdwn' map to and from `PlainText` and `MrkdwnText` |
| `Texts.TextValue` | src/Partials/Text.php:58-61 | a text as a value inside an array: it succeeds exactly when `toArray` does, and is that array |
| `Options.OptionObject.Validate` | src/Partials/Option.php:81-110 | fails first for a missing label, then for a missing value; passes exactly when the label and value are 1 to 75 characters, a description is 1 to 75 characters under no parent or a checkbox or radio group, and a non-empty url is at most 3000 characters under no parent or an overflow menu |
| `Options.OptionObject.DescriptionArray` | src/Partials/Option.php:121-123 | no description gives nothing; a description gives its own array or its failure |
| `Options.OptionObject.ToArray` | src/Partials/Option.php:112-130 | an option without a label fails (the call on null); one that serialises is acceptable |
| `Options.EntriesLookup` | src/Partials/Option.php:116-127 | the own entries hold the label, the value (null when unset), the description only when set and the url only when set and not empty |
| `Options.EntriesKeys` | src/Partials/Option.php:116-127 | the own entries use only 'text', 'value', 'description' and 'url' |
| `Options.NewOption` | src/Partials/Option.php:28-41 | `Option::new` sets a plain-text label with the configured emoji default only when a label is given, and the value as given; nothing else |
| `Options.ToArrayEntries` | src/Partials/Option.php:112-130 | a serialised option holds its label's array, its value, the url exactly when set and not empty, and the description exactly when set |
| `Options.OwnKeyLookup` | src/Partials/Option.php:129 | a key that is not the type or an extra is looked up in the option's own entries (`+` gives the base array first place) |
| `Options.NotInBase` | src/Element.php:106-118 | a key that is neither 'type' nor an extra is absent from the base array |
| `Options.RoundTrip` | src/Partials/Option.php:112-151 | an acceptable option without parent or extras, whose url is not empty when set, serialises, and hydrating the result gives it back |
| `Options.SerialisesToOwnEntries` | src/Partials/Option.php:129 | such an option serialises to its own entries alone (its tag is hidden) |
| `Options.OptionBaseIsEmpty` | src/Element.php:109-111 | the base array of an acceptable option without extras is empty, since 'option' is a hidden type |
| `Options.HydratesOwnEntries` | src/Partials/Option.php:132-151 | hydrating an option's own entries gives it back |
| `Options.EveryKeyRead` | src/Partials/Option.php:132-151 | when only the option's keys are present, hydration consumes every key and leaves no extras |
| `Options.OwnKeyRead` | src/Partials/Option.php:132-151 | every own key present with a non-null value is consumed |
| `Options.KeyRead` | src/HydrationData.php:28-31 | a key present with a non-null value counts as set |
| `Options.OwnEntriesKeys` | src/Partials/Option.php:116-127 | the serialised entries use only the own keys |
| `Options.OnlyOwnKeys` | src/Partials/Option.php:129 | an array made of own entries only has only own keys and no 'type' |
| `Options.OwnLookups` | src/Partials/Option.php:116-127 | the serialised form holds the label, value, description and url as serialised |
| `Options.ReadsBack` | src/Partials/Option.php:132-151 | data holding an option's serialised label, value, description and url reads back as the option's fields |
| `Options.ReadsBackString` | src/Partials/Option.php:138-140 | a string stored under a key reads back as itself |
| `Options.ReadsBackText` | src/Partials/Option.php:134-136 | a valid plain text stored under a key reads back as itself |
| `Options.FromData` | src/Element.php:152-175 | `Option::fromArray`: class resolution fails first, otherwise the corrected hydration decides |
| `Options.ReadText` | src/Partials/Option.php:134-136 | an unset key reads as none; a read label or description is a valid plain text |
| `Options.HydratedAsWritten` | src/Partials/Option.php:146-148 | as written, hydration never sets the url, and a set 'url' ends up as the value |
| `Options.UrlLostAsWritten` | src/Partials/Option.php:146-148 | whenever the corrected hydration succeeds on data with a url, the written one gives a different option |
| `Options.LinkOptionHydration` | src/Partials/Option.php:146-148 | the overflow option with value 'docs' and a url: corrected, it keeps both; as written, the url replaces the value and is lost |
| `Options.NothingLeftToHydrate` | src/Element.php:180-194 | with no type and no unread keys, finishing hydration keeps an acceptable option as it is |
| `Options.Hydrated` | src/Partials/Option.php:132-151 | a hydrated option took its label, value, description and url from the data, has no parent and is acceptable |
| `Options.ReadFields` | src/Partials/Option.php:132-149 | the reads of `hydrate`: each field from its own key, nothing else set |
| `Options.Completed` | src/Element.php:180-194 | the end of hydration: only extras are added, from the unconsumed keys, and the option must then validate |
| `Options.FromArray` | src/Element.php:152-175 | the method reading an option gives `FromData` |
| `Options.Hydrate` | src/Partials/Option.php:132-151 | the method hydrating an option gives `Hydrated` |
| `Options.UseFields` | src/Partials/Option.php:132-149 | the method doing the reads gives `ReadFields` and consumes exactly the keys that are set |
| `Options.Complete` | src/Element.php:180-194 | the method finishing hydration gives `Completed` |
| `OptionsConfigs.OptionsConfig.constructor` | src/Partials/OptionsConfig.php:32-35 | a new configuration asks for at least one option and sets no maximum |
| `OptionsConfigs.OptionsConfig.Limits` | src/Partials/OptionsConfig.php:37-70 | the getters read the three limits as stored |
| `OptionsConfigs.OptionsConfig.SetMinOptions` | src/Partials/OptionsConfig.php:45-50 | sets the minimum, keeps the other limits, returns the same configuration |
| `OptionsConfigs.OptionsConfig.SetMaxOptions` | src/Partials/OptionsConfig.php:60-65 | sets the maximum, keeps the other limits, returns the same configuration |
| `OptionsConfigs.OptionsConfig.SetMaxInitialOptions` | src/Partials/OptionsConfig.php:75-80 | sets the initial maximum, keeps the other limits, returns the same configuration |
| `OptionsConfigs.IntOf` | src/Partials/HasOptions.php:104 | `(int)` of an unset limit is 0, of a set one the limit itself |
| `OptionLists.GetOptionsConfig` | src/Inputs/OverflowMenu.php:15-21 | each owner's `getOptionsConfig` builds a fresh configuration holding its policy (overflow menu 2 to 5 and no initial option, checkboxes 1 to 10 with up to 10 initial, the default otherwise) |
| `OptionLists.AdoptAll` | src/Partials/HasOptions.php:53-60 | every option of the list, in order, gets the owner as parent |
| `OptionLists.PairOption` | src/Partials/HasOptions.php:70-78 | a pair with an integer key becomes an option labelled with its value; a string key becomes the label; the value is the pair's value; nothing else is set |
| `OptionLists.PairOptions` | src/Partials/HasOptions.php:70-78 | one option per pair, in order |
| `OptionLists.FirstFailure` | src/Partials/HasOptions.php:114-116 | the loop of `validate` calls passes exactly when every option is acceptable; otherwise it fails as some unacceptable option does |
| `OptionLists.InitialVerdict` | src/Partials/HasOptions.php:131-145 | too many initial options fail with the maximum; otherwise it passes exactly when every initial option is acceptable |
| `OptionLists.OptionsVerdict` | src/Partials/HasOptions.php:102-129 | no options, or fewer than the minimum, fail with 'at least min'; more than a set maximum fail with 'not more than max'; then the options, then the initial checks |
| `OptionLists.OptionsVerdictPasses` | src/Partials/HasOptions.php:102-129 | `validateOptions` passes exactly when the counts are within the limits and every option and initial option is acceptable |
| `OptionLists.OverflowMenuRejectsInitialOptions` | src/Inputs/OverflowMenu.php:15-21 | an overflow menu refuses any initial option, its initial maximum being 0 |
| `OptionLists.SerialiseAll` | src/Partials/HasOptions.php:149 | the `array_map` of `toArray` succeeds exactly when each option serialises, and holds each one's array in order |
| `OptionLists.ListUnder` | src/Partials/HasOptions.php:147-150 | `['options' => ...]`: a single key holding the list of serialised options |
| `OptionLists.OptionFromValue` | src/Partials/HasOptions.php:170-172 | a non-array entry is a type error; an array is read by `Option::fromArray`, giving an acceptable option without parent |
| `OptionLists.OptionsUnder` | src/Partials/HasOptions.php:169-173 | an unset list reads as empty, a non-array is a type error, an array is read option by option |
| `OptionLists.OptionUnder` | src/Partials/HasOptions.php:175-177 | an unset key reads as no option; a set one as the option it holds |
| `OptionLists.InitialUnder` | src/Partials/HasOptions.php:175-183 | the initial options are the one under 'initial_option' followed by those under 'initial_options' |
| `OptionLists.ReadOptionLists` | src/Partials/HasOptions.php:167-184 | the reads of `hydrateOptions`: the options and the initial options, each failing as its own read does |
| `OptionLists.ValidateEach` | src/Partials/HasOptions.php:114-116 | the loop gives `FirstFailure` |
| `OptionLists.FromValues` | src/Partials/HasOptions.php:170-172 | the loop reading options gives the `MapAll` of `OptionFromValue` |
| `OptionLists.InitialArray` | src/Partials/HasOptions.php:152-165 | no initial options write nothing; an initial maximum of exactly 1 writes the first under 'initial_option'; otherwise all under 'initial_options' |
| `OptionLists.CheckboxesListInitialOptions` | src/Inputs/Checkboxes.php:15-21 | checkboxes, whose initial maximum is 10, write their initial options as a list |
| `OptionLists.OptionSet.constructor` | src/Partials/HasOptions.php:15-22 | no options, no initial options, no configuration yet |
| `OptionLists.OptionSet.Config` | src/Partials/HasOptions.php:24-31 | the configuration is made once, on first use, and then kept; it holds the owner's policy |
| `OptionLists.OptionSet.AddOption` | src/Partials/HasOptions.php:38-48 | appends the option, adopted, to the options and, when initial, to the initial options |
| `OptionLists.OptionSet.AddOptions` | src/Partials/HasOptions.php:53-60 | appends every option, adopted, in order |
| `OptionLists.OptionSet.AddNewOption` | src/Partials/HasOptions.php:62-65 | appends a new option with the label and value, also as initial when asked |
| `OptionLists.OptionSet.AddPairs` | src/Partials/HasOptions.php:70-78 | appends one new option per pair, in order |
| `OptionLists.OptionSet.AddInitialOption` | src/Partials/HasOptions.php:80-87 | appends a new adopted option to the initial options only |
| `OptionLists.OptionSet.AddInitialPairs` | src/Partials/HasOptions.php:92-100 | appends one new initial option per pair, in order |
| `OptionLists.OptionSet.ValidateOptions` | src/Partials/HasOptions.php:102-129 | gives `OptionsVerdict` under the owner's policy and changes no option |
| `OptionLists.OptionSet.ValidateInitialOptions` | src/Partials/HasOptions.php:131-145 | gives `InitialVerdict` under the owner's policy and changes no option |
| `OptionLists.OptionSet.OptionsArray` | src/Partials/HasOptions.php:147-150 | gives `ListUnder('options', ...)` |
| `OptionLists.OptionSet.InitialOptionsArray` | src/Partials/HasOptions.php:152-165 | gives `InitialArray` under the owner's policy |
| `OptionLists.OptionSet.HydrateOptions` | src/Partials/HasOptions.php:167-184 | succeeds exactly when the reads succeed; then the read options are appended adopted, the initial ones appended as read, and exactly the set keys consumed |
| `OptionLists.UseInitial` | src/Partials/HasOptions.php:175-183 | the method reading the initial options gives `InitialUnder` |
| `OptionLists.UseListed` | src/Partials/HasOptions.php:169-173 | the method reading 'options' gives `OptionsUnder` and consumes the key only when set |
| `OptionLists.UseSingle` | src/Partials/HasOptions.php:175-177 | the method reading 'initial_option' gives `OptionUnder` and consumes the key only when set |
| `OptionLists.UseInitialList` | src/Partials/HasOptions.php:179-183 | the method reading 'initial_options' gives `OptionsUnder` and consumes the key only when set |
| `Confirms.ConfirmFields.Validate` | src/Partials/Confirm.php:109-131 | a missing title, text, confirm or deny label fails with its own message, in that order; it passes exactly when all four are set and each text is acceptable |
| `Confirms.ConfirmFields.ToArray` | src/Partials/Confirm.php:133-141 | fails as validation does; a serialised dialog is acceptable |
| `Confirms.NewFields` | src/Partials/Confirm.php:31-47 | a title or text is set only when given and non-empty (the text as mrkdwn); the confirm label defaults to 'OK', the deny label to 'Cancel' |
| `Confirms.NewDialogIsValid` | src/Partials/Confirm.php:31-47 | a dialog made with a non-empty title and text is valid |
| `Confirms.OrElse` | src/Partials/Confirm.php:145-159 | a key that is read replaces the held text; an absent one keeps it |
| `Confirms.ReadFields` | src/Partials/Confirm.php:143-160 | reading the four texts leaves the extra fields alone |
| `Confirms.Completed` | src/Partials/Confirm.php:161 | `parent::hydrate` keeps the four texts, adds the unread keys as extra fields and requires the result to be valid |
| `Confirms.Rehydrated` | src/Partials/Confirm.php:143-162 | a hydrated dialog is valid |
| `Confirms.Hydrated` | src/Partials/Confirm.php:143-162 | a dialog read from an array is valid, keeps the default 'OK' and 'Cancel' labels when those keys are absent, and holds the title read from 'title' |
| `Confirms.FromData` | src/Element.php:152-175 | `Confirm::fromArray` fails as the class resolution does, or else hydrates a new dialog |
| `Confirms.EntriesLookup` | src/Partials/Confirm.php:135-140 | the four serialised entries have distinct keys and each key holds its own text's array |
| `Confirms.BaseIsEmpty` | src/Element.php:106-118 | a valid dialog with no extra field gets an empty array from `Element::toArray`, its type being hidden |
| `Confirms.SerialisesToOwnEntries` | src/Partials/Confirm.php:133-141 | a valid dialog without extra fields serialises to exactly its four entries |
| `Confirms.RoundTrip` | src/Partials/Confirm.php:133-162 | a valid dialog of plain texts serialises, and reading the array back gives the same dialog |
| `Confirms.CompletesUnchanged` | src/Element.php:180-194 | when nothing is left unread and no type is given, `Element::hydrate` keeps a valid dialog as it is |
| `Confirms.NothingUnread` | src/Partials/Confirm.php:143-162 | hydration reads every key a valid dialog writes, and that array has no type |
| `Confirms.EntriesUnread` | src/Partials/Confirm.php:143-162 | an array of only the four keys, all set, has no type and nothing left unread |
| `Confirms.NoTypeKey` | src/Partials/Confirm.php:135-140 | an array of only the four keys has no 'type' |
| `Confirms.OwnKeysRead` | src/Partials/Confirm.php:145-159 | when all four keys are set, hydration reads all four |
| `Confirms.OwnEntriesRead` | src/Partials/Confirm.php:143-160 | reading a valid dialog's own entries gives back its four texts |
| `Confirms.ReadsFrom` | src/Partials/Confirm.php:145-159 | when each key holds its text, the reads give those texts |
| `Confirms.ConfirmDialog.constructor` | src/Partials/Confirm.php:31-47 | the new dialog holds `NewFields` of the arguments and has no parent |
| `Confirms.ConfirmDialog.SetTitle` | src/Partials/Confirm.php:49-54 | replaces the title only |
| `Confirms.ConfirmDialog.SetText` | src/Partials/Confirm.php:56-61 | replaces the text only |
| `Confirms.ConfirmDialog.SetConfirm` | src/Partials/Confirm.php:63-68 | replaces the confirm label only |
| `Confirms.ConfirmDialog.SetDeny` | src/Partials/Confirm.php:70-75 | replaces the deny label only |
| `Confirms.ConfirmDialog.SetParent` | src/Element.php:38-43 | sets the parent and changes nothing else |
| `Confirms.ConfirmDialog.Hydrate` | src/Partials/Confirm.php:143-162 | passes exactly when `Rehydrated` succeeds, and then holds its result; fails with its error otherwise |
| `Confirms.HydrateFields` | src/Partials/Confirm.php:143-162 | the hydration method gives `Rehydrated` |
| `Confirms.UseFields` | src/Partials/Confirm.php:145-159 | the reads give `ReadFields` and consume exactly the keys that are set |
| `Confirms.Complete` | src/Element.php:180-194 | the closing `parent::hydrate` gives `Completed` |
| `Confirms.FromArray` | src/Element.php:152-175 | succeeds exactly when `FromData` does, and then gives a new dialog without parent holding its result |
| `OptionInputs.CheckboxesVerdict` | src/Inputs/Checkboxes.php:23-31 | the option checks decide first; a dialog is validated only when set; it passes exactly when the options pass and any dialog is acceptable |
| `OptionInputs.OverflowMenuVerdict` | src/Inputs/OverflowMenu.php:28-33 | the option checks decide first; then `$this->confirm->validate()` runs whether or not a dialog is set, so a menu without one fails; it passes exactly when the options pass and a dialog is set and acceptable |
| `OptionInputs.OverflowMenuNeeds` | src/Inputs/OverflowMenu.php:15-33 | a valid overflow menu has a dialog, no initial option and 2 to 5 options |
| `OptionInputs.CheckboxesBounds` | src/Inputs/Checkboxes.php:15-31 | a valid checkbox group has 1 to 10 options and at most 10 initial ones |
| `OptionInputs.WithConfirm` | src/Inputs/Checkboxes.php:37-39 | no dialog leaves the array alone; a dialog that fails fails the whole; otherwise 'confirm' holds the dialog's array |
| `OptionInputs.ListsArray` | src/Inputs/Checkboxes.php:33-35 | the base array plus the option lists fails as validation does; its content is stated by `OptionInputs.ListsLookup` |
| `OptionInputs.InputArray` | src/Inputs/OverflowMenu.php:35-46 | `toArray` fails as validation does; succeeds only for a valid input; without a dialog it is the base array plus the option lists; with one it also holds the dialog; its content is stated by `OptionInputs.InputArrayParts` and `OptionInputs.InputArrayConfirm` |
| `OptionInputs.InputKeysDiffer` | src/Inputs/Checkboxes.php:33-42 | the keys an option input writes (type, action_id, options, initial_options, confirm) are pairwise distinct |
| `OptionInputs.InputBase` | src/Element.php:106-118 | without extras, `Element::toArray` of a valid checkbox group or overflow menu is just its type tag |
| `OptionInputs.ListUnderLookup` | src/Partials/HasOptions.php:147-150 | an option list written under a key holds the options' arrays there and nothing under any other key |
| `OptionInputs.ListsOverLookup` | src/Partials/HasOptions.php:147-165 | the option lists, added with PHP `+`, fill only the keys the head leaves free; the options (and a checkbox group's non-empty initial options) serialise |
| `OptionInputs.ListsHead` | src/Inputs/InputElement.php:39-48 | without extras, the head of the array is the type tag plus the action id unless `empty()` |
| `OptionInputs.ListsLookup` | src/Inputs/Checkboxes.php:33-35 | under each key, the part before the dialog holds the type tag, the action id unless `empty()`, the options, or a checkbox group's initial options when there are any, and nothing else |
| `OptionInputs.HeadLookup` | src/Inputs/InputElement.php:39-48 | the head holds the tag under type, the action id under action_id unless `empty()`, and nothing else |
| `OptionInputs.InputLookup` | src/Inputs/OverflowMenu.php:35-46 | under confirm, `toArray` holds the dialog's array exactly when one is set; under every other key, what `ListsLookup` says |
| `OptionInputs.InputArrayParts` | src/Inputs/Checkboxes.php:33-42 | a serialised input holds its type tag, its action id exactly when not `empty()`, the options' arrays in order, and a checkbox group's initial options under initial_options exactly when there are any (never for an overflow menu) |
| `OptionInputs.InputArrayConfirm` | src/Inputs/OverflowMenu.php:35-46 | confirm holds the dialog's array when one is set and is absent otherwise; no other key is written |
| `OptionInputs.ConfirmUnder` | src/Inputs/Checkboxes.php:48-50 | an unset 'confirm' reads as no dialog, a non-array is a type error, and a dialog read is valid |
| `OptionInputs.ActionIdUnder` | src/Inputs/InputElement.php:50-57 | an unset 'action_id' reads as none, a string is taken, anything else is a type error |
| `OptionInputs.ReadInput` | src/Inputs/Checkboxes.php:44-53 | what the reads give: the option lists as `hydrateOptions` reads them (options adopted), the dialog and the action id |
| `OptionInputs.RestUnder` | src/Inputs/Checkboxes.php:48-53 | the dialog and the action id as read |
| `OptionInputs.Assemble` | src/Inputs/Checkboxes.php:44-53 | the option read decides first, then the rest; both successful give the combined fields |
| `OptionInputs.InputCompleted` | src/Element.php:180-194 | the closing `parent::hydrate` keeps the fields, adds the unread keys and requires validity |
| `OptionInputs.InputHydrated` | src/Inputs/OverflowMenu.php:48-57 | a hydrated checkbox group or overflow menu is valid and holds the options `hydrateOptions` read, adopted |
| `OptionInputs.InputFromData` | src/Element.php:152-175 | `fromArray` fails as the class resolution does, or else hydrates a new input |
| `OptionInputs.OptionInput.constructor` | src/Inputs/InputElement.php:17-22 | a new input of the class with the action id only when given and non-empty, and nothing else set |
| `OptionInputs.OptionInput.SetActionId` | src/Inputs/InputElement.php:27-32 | sets the action id and nothing else |
| `OptionInputs.OptionInput.SetConfirm` | src/Inputs/HasConfirm.php:19-24 | holds the dialog, adopted, and changes nothing else |
| `OptionInputs.OptionInput.ConfirmWith` | src/Inputs/HasConfirm.php:29-32 | holds a new dialog built from the four strings, adopted |
| `OptionInputs.OptionInput.UrlOption` | src/Inputs/OverflowMenu.php:23-26 | appends a new option with the label, value and url |
| `OptionInputs.OptionInput.Validate` | src/Inputs/Checkboxes.php:23-31 | gives the class's verdict and changes nothing |
| `OptionInputs.OptionInput.ToArray` | src/Inputs/Checkboxes.php:33-42 | gives `InputArray` |
| `OptionInputs.OptionInput.Hydrate` | src/Inputs/Checkboxes.php:44-53 | on a new input, passes exactly when `InputHydrated` succeeds and then holds its result |
| `OptionInputs.OptionInput.HydrateFinish` | src/Element.php:180-194 | the closing `parent::hydrate` gives `InputCompleted` |
| `OptionInputs.OptionInput.HydrateReads` | src/Inputs/Checkboxes.php:46-50 | the reads give `Assemble` of the option lists and the rest |
| `OptionInputs.OptionInput.HydrateRest` | src/Inputs/InputElement.php:50-57 | the dialog and action id reads give `RestUnder` and consume exactly the keys set |
| `OptionInputs.HydrateBase` | src/Element.php:180-194 | the type check and extra fields of `Element::hydrate` over the unread keys |
| `OptionInputs.UseConfirm` | src/Inputs/Checkboxes.php:48-50 | reads the dialog as `ConfirmUnder` and consumes 'confirm' only when set |
| `OptionInputs.UseActionId` | src/Inputs/InputElement.php:52-54 | reads the action id as `ActionIdUnder` and consumes 'action_id' only when set |
| `OptionInputs.FromArray` | src/Element.php:152-175 | succeeds exactly when `InputFromData` does, and then gives a new valid input of the class holding its result |
| `OptionGroups.GroupsVerdict` | src/Partials/HasOptionGroups.php:47-60 | options and groups both empty or both set fail with 'options or option_groups, but not both'; otherwise only the groups, or only the options, are checked |
| `OptionGroups.GroupsVerdictPasses` | src/Partials/HasOptionGroups.php:47-60 | a list that passes holds options or groups but not both, every group is valid, and plain options pass the option checks |
| `OptionGroups.GroupsArray` | src/Partials/HasOptionGroups.php:62-69 | no groups write the options; with groups the array succeeds exactly when every group serialises |
| `OptionGroups.GroupsArrayKey` | src/Partials/HasOptionGroups.php:62-69 | the array has the single key 'option_groups' when groups exist, 'options' otherwise |
| `OptionGroups.GroupFromValue` | src/Partials/HasOptionGroups.php:74-76 | a non-array entry is a type error; an array is read by `OptionGroup::fromArray` |
| `OptionGroups.GroupsUnder` | src/Partials/HasOptionGroups.php:73-77 | unset 'option_groups' reads as none, a non-array is a type error, an array is read group by group |
| `OptionGroups.GroupedRead` | src/Partials/HasOptionGroups.php:71-80 | the groups are read first and their failure wins; then the option lists |
| `OptionGroups.GroupedOptions.constructor` | src/Partials/HasOptionGroups.php:17 | no options, no initial options, no groups |
| `OptionGroups.GroupedOptions.AddOptionGroup` | src/Partials/HasOptionGroups.php:19-25 | appends the group |
| `OptionGroups.GroupedOptions.AddOptionGroups` | src/Partials/HasOptionGroups.php:30-37 | appends the groups in order |
| `OptionGroups.GroupedOptions.ValidateOptionGroups` | src/Partials/HasOptionGroups.php:47-60 | gives `GroupsVerdict` under the owner's policy and changes no option |
| `OptionGroups.GroupedOptions.OptionGroupsArray` | src/Partials/HasOptionGroups.php:62-69 | gives `GroupsArray` |
| `OptionGroups.GroupedOptions.HydrateOptionGroups` | src/Partials/HasOptionGroups.php:71-80 | succeeds exactly when `GroupedRead` does, and then holds the groups read and the options read, adopted |
| `OptionGroups.UseGroups` | src/Partials/HasOptionGroups.php:73-77 | reads the groups as `GroupsUnder` and consumes 'option_groups' only when set |
| `OptionGroups.GroupsFromValues` | src/Partials/HasOptionGroups.php:74-76 | the loop gives the `MapAll` of the group reader |
| `Ids.Firsts` | src/Surfaces/Surface.php:176 | the keys of `array_count_values`: exactly the ids, each once |
| `Ids.Repeated` | src/Surfaces/Surface.php:179-183 | the keys that occur more than once among the ids |
| `Ids.Duplicates` | src/Surfaces/Surface.php:176-184 | exactly the ids counted more than once, each listed once |
| `Ids.RepeatedDistinct` | src/Surfaces/Surface.php:179-183 | filtering distinct keys gives distinct keys |
| `Ids.TwoPositions` | src/Surfaces/Surface.php:176-184 | an id counted more than once occurs at two positions |
| `Ids.CountedTwice` | src/Surfaces/Surface.php:176-184 | an id at two positions is counted more than once |
| `Ids.NoDuplicatesIff` | src/Surfaces/Surface.php:176-190 | no duplicate is reported exactly when the ids are pairwise distinct |
| `Ids.CountValues` | src/Surfaces/Surface.php:176 | the counting loop lists the ids in first-occurrence order and counts each one's occurrences |
| `Ids.DuplicateIds` | src/Surfaces/Surface.php:176-184 | the two loops give `Duplicates` |
| `Ids.KeepRepeated` | src/Surfaces/Surface.php:179-183 | the loop over the counts gives `Repeated` |
| `VirtualBlocks.SubIdInjective` | src/Blocks/Virtual/VirtualBlock.php:58 | two counter values give two different "<id>.<n>" ids |
| `VirtualBlocks.NumberedDistinct` | src/Blocks/Virtual/VirtualBlock.php:53-63 | blocks numbered one after another never share a block id |
| `VirtualBlocks.Renamed` | src/Blocks/Virtual/VirtualBlock.php:45-48 | the `array_map` of `assignBlockId`: as many blocks, numbered from the counter on, each otherwise unchanged |
| `VirtualBlocks.VirtualBlock.constructor` | src/Blocks/BlockElement.php:14-19 | the block id is kept only when non-empty; no blocks yet, counter at 1 |
| `VirtualBlocks.VirtualBlock.SetBlockId` | src/Blocks/BlockElement.php:21-26 | sets the block id; the blocks and the counter stay |
| `VirtualBlocks.VirtualBlock.AssignBlockId` | src/Blocks/Virtual/VirtualBlock.php:53-63 | without a block id the block is returned as is; with one it is renamed "<id>.<counter>" and the counter advances |
| `VirtualBlocks.VirtualBlock.AppendBlock` | src/Blocks/Virtual/VirtualBlock.php:28-37 | the block goes last, renamed when there is a block id; the numbering is kept |
| `VirtualBlocks.VirtualBlock.PrependBlock` | src/Blocks/Virtual/VirtualBlock.php:39-51 | the block goes first as "<id>.1" and every earlier block is renumbered after it; without a block id nothing is renamed |
| `VirtualBlocks.VirtualBlock.Validate` | src/Blocks/Virtual/VirtualBlock.php:80-85 | each sub-block in turn; the first failure decides |
| `VirtualBlocks.VirtualBlock.ToArray` | src/Blocks/Virtual/VirtualBlock.php:87-90 | succeeds exactly when every sub-block serialises, and lists their arrays in order |
| `VirtualBlocks.VirtualBlock.Hydrate` | src/Blocks/Virtual/VirtualBlock.php:98-101 | always fails: a virtual block cannot be hydrated |
| `VirtualBlocks.NumberedBlocksDistinct` | src/Blocks/Virtual/VirtualBlock.php:53-63 | the blocks of a virtual block with an id have distinct block ids |
| `Surfaces.FlattenConcat` | src/Surfaces/Surface.php:57-71 | `getBlocks` of a concatenation is the concatenation of the flattenings |
| `Surfaces.Flatten` | src/Surfaces/Surface.php:57-71 | a block is in `getBlocks` exactly when some held entry, a block or a virtual block, expands to it |
| `Surfaces.FlattenSingles` | src/Surfaces/Surface.php:57-71 | without virtual blocks `getBlocks` gives the blocks themselves |
| `Surfaces.AddCheck` | src/Surfaces/Surface.php:28-35 | `add` passes exactly when the block's type is among the surface type's allowed block types |
| `Surfaces.AddRejections` | src/Type.php:61-107 | a home tab refuses input and file blocks; a message refuses input blocks |
| `Surfaces.BlockIds` | src/Surfaces/Surface.php:168-174 | the collected ids are exactly the non-null block ids |
| `Surfaces.SurfaceVerdict` | src/Surfaces/Surface.php:156-191 | no blocks fail; 50 or more fail; then each block's own validation; then any duplicated block id fails with the duplicates listed |
| `Surfaces.SurfacePasses` | src/Surfaces/Surface.php:156-191 | a valid surface has 1 to 49 blocks, each valid, no two sharing a block id |
| `Surfaces.IdsPositions` | src/Surfaces/Surface.php:168-174 | two blocks sharing an id put that id twice into the collected list |
| `Surfaces.SurfaceArray` | src/Surfaces/Surface.php:193-203 | fails as validation does; succeeds only when every block serialises, and then 'blocks' holds their arrays in order |
| `Surfaces.SurfaceBody.constructor` | src/Surfaces/Surface.php:26 | a surface of the class with no block and no extra field |
| `Surfaces.SurfaceBody.Add` | src/Surfaces/Surface.php:28-40 | the block is appended exactly when `AddCheck` passes; otherwise nothing changes |
| `Surfaces.SurfaceBody.GetBlocks` | src/Surfaces/Surface.php:57-71 | the loop replaces each virtual block by its sub-blocks |
| `Surfaces.SurfaceBody.Validate` | src/Surfaces/Surface.php:156-191 | gives `SurfaceVerdict` of the flattened blocks |
| `Surfaces.SurfaceBody.ToArray` | src/Surfaces/Surface.php:193-203 | a failed validation is the outcome; otherwise every block of `getBlocks`, virtual blocks expanded, serialises and the arrays are under blocks in order |
| `Surfaces.SurfaceBody.Copy` | src/Surfaces/Message.php:117 | PHP `clone`: a new surface with the same blocks, extras and parent |
| `Surfaces.CheckBlocks` | src/Surfaces/Surface.php:168-190 | the block loop and the duplicate check give `SurfaceVerdict` |
| `ActionBlocks.AddCheck` | src/Blocks/Actions.php:30-43 | `add` passes exactly when the element's type is an actions element and fewer than five are held; the type check comes first |
| `ActionBlocks.ActionIds` | src/Blocks/Actions.php:113-119 | the collected ids are exactly the action ids of the input elements |
| `ActionBlocks.ActionsVerdict` | src/Blocks/Actions.php:107-136 | no elements fail; then each element's own validation; then any duplicated action id fails with the duplicates listed |
| `ActionBlocks.ActionsPasses` | src/Blocks/Actions.php:107-136 | a valid actions block has elements, each valid, and no action id collected twice |
| `ActionBlocks.Taken` | src/Blocks/Actions.php:25-27 | the constructor's `foreach` gets through at most the whole list |
| `ActionBlocks.TakenStops` | src/Blocks/Actions.php:25-27 | where the `foreach` stops, the check refuses the element |
| `ActionBlocks.AddAccepts` | src/Blocks/Actions.php:30-43 | `add` accepts an element of an allowed kind while fewer than five are held, and nothing else |
| `ActionBlocks.TakenAll` | src/Blocks/Actions.php:22-43 | with at most five held, the `foreach` of `add` gets through the whole list exactly when every element is of an allowed kind and all of them fit |
| `ActionBlocks.AddedAllMeaning` | src/Blocks/Actions.php:22-28 | the `foreach` keeps the elements held and appends a prefix of the list; it passes exactly when it gets through the whole list, and otherwise its outcome is the refusal of the first element left out |
| `ActionBlocks.ActionsBlock.constructor` | src/Blocks/Actions.php:22-24 | no elements; the block id kept only when non-empty |
| `ActionBlocks.ActionsBlock.AddEach` | src/Blocks/Actions.php:25-27 | `add` for each element of the constructor's list in turn, stopping at the first refusal: the elements and the outcome are `AddedAll` of `add`'s check, and the block stays well-formed |
| `ActionBlocks.ActionsBlock.Add` | src/Blocks/Actions.php:30-43 | the element is appended exactly when `AddCheck` passes; otherwise nothing changes |
| `ActionBlocks.ActionsBlock.Validate` | src/Blocks/Actions.php:107-136 | gives `ActionsVerdict` |
| `ActionBlocks.ActionsBlock.ToArray` | src/Blocks/Actions.php:138-148 | fails as validation does; succeeds only when every element serialises, and then 'elements' holds their arrays in order |
| `FieldLists.Wrap` | src/Partials/Fields.php:43-45 | a text is taken as is; a string or null becomes a new mrkdwn text; any other value is a type error |
| `FieldLists.PopulatedMeaning` | src/Partials/Fields.php:40-51 | `populate` keeps the held fields, appends the wrapped items in order up to ten, and passes exactly when every item wraps and the ten-field cap is not passed |
| `FieldLists.Populated` | src/Partials/Fields.php:40-51 | `populate` never drops a field and adds at most one per item; it passes only when every item was added, and a failure leaves some item out |
| `FieldLists.AllWrapStep` | src/Partials/Fields.php:42-48 | every item wraps exactly when the first does and the rest do |
| `FieldLists.TextsVerdict` | src/Partials/Fields.php:59-61 | passes exactly when every field is acceptable; otherwise fails as some field does |
| `FieldLists.FieldsVerdict` | src/Partials/Fields.php:53-62 | passes exactly when there is a field and every field is acceptable; no field fails with its own message |
| `FieldLists.FieldsArray` | src/Partials/Fields.php:64-72 | succeeds only for valid fields that all serialise; no field fails |
| `FieldLists.FieldsArrayIsList` | src/Partials/Fields.php:64-72 | the array is a list holding, at index i, field i's array |
| `FieldLists.HiddenBase` | src/Element.php:106-118 | a fields element writes no type, its type being hidden |
| `FieldLists.ListUnion` | src/Partials/Fields.php:71 | the empty base array plus the list is the list |
| `FieldLists.ListUntyped` | src/Partials/Fields.php:71 | the list has no 'type' |
| `FieldLists.FieldFromValue` | src/Partials/Fields.php:76-78 | a non-array is a type error; an array is read by `Text::fromArray`, giving an acceptable text |
| `FieldLists.AllReadStep` | src/Partials/Fields.php:76-78 | every value reads exactly when the first does and the rest do |
| `FieldLists.ReadFieldsMeaning` | src/Partials/Fields.php:74-79 | reading succeeds exactly when every value reads and the ten-field cap holds; the fields read follow the held ones in order |
| `FieldLists.FieldsFromData` | src/Partials/Fields.php:74-81 | a hydrated fields element holds the texts read from every value, and is valid |
| `FieldLists.FieldsFromArray` | src/Element.php:152-175 | `fromArray` fails as the class resolution does, or else hydrates |
| `FieldLists.ReadBack` | src/Partials/Fields.php:74-81 | the serialised values read back to the same fields |
| `FieldLists.ReadsEach` | src/Partials/Fields.php:76-78 | when each value reads to its field, the loop gives all of them |
| `FieldLists.WrittenOut` | src/Partials/Fields.php:64-72 | valid fields without extras serialise to the list of their arrays |
| `FieldLists.RoundTrip` | src/Partials/Fields.php:64-81 | one to ten valid fields without extras serialise, and reading the array back gives the same fields |
| `FieldLists.HydratesList` | src/Partials/Fields.php:74-81 | a non-empty serialised list hydrates to its fields |
| `FieldLists.FieldList.constructor` | src/Partials/Fields.php:19-24 | no fields, no extras, no parent |
| `FieldLists.FieldList.Add` | src/Partials/Fields.php:26-35 | appends the text while fewer than ten are held; otherwise fails and changes nothing |
| `FieldLists.FieldList.Populate` | src/Partials/Fields.php:40-51 | gives `Populated` of the held fields and the items |
| `FieldLists.FieldList.Validate` | src/Partials/Fields.php:53-62 | gives `FieldsVerdict` |
| `FieldLists.FieldList.ToArray` | src/Partials/Fields.php:64-72 | gives `FieldsArray` |
| `FieldLists.FieldList.Hydrate` | src/Partials/Fields.php:74-81 | consumes every key; on success holds `FieldsFromData` of the array; fails with its error otherwise |
| `FieldLists.FieldList.AddRead` | src/Partials/Fields.php:76-78 | the loop adding the read texts gives `ReadFields` |
| `FieldLists.ReadField` | src/Partials/Fields.php:77 | gives `FieldFromValue` |
| `FieldLists.FromArray` | src/Element.php:152-175 | fails exactly when `FieldsFromArray` does; otherwise a new element holding its fields |
| `Sections.AccessoryCheck` | src/Blocks/Section.php:58-71 | a second accessory fails, naming the first one's type; an element not on the accessory list fails; it passes exactly when no accessory is set and the element's type is on the list |
| `Sections.SectionVerdict` | src/Blocks/Section.php:177-194 | neither text nor fields fails; then the text, the fields and the accessory are validated in that order, each failure reported as is; it passes exactly when there is a text or fields and each part present passes |
| `Sections.SectionPasses` | src/Blocks/Section.php:177-194 | a section is valid exactly when it has a text or fields, its text is non-empty, its fields are at least one and all valid, and its accessory is valid, each when present |
| `Sections.FieldsValue` | src/Blocks/Section.php:204-206 | the value under 'fields' is the fields' array, or their error |
| `Sections.SectionArray` | src/Blocks/Section.php:196-213 | fails as validation does |
| `Sections.PartKeysDiffer` | src/Blocks/Section.php:200-210 | 'text', 'fields' and 'accessory' are three different keys |
| `Sections.SectionArrayParts` | src/Blocks/Section.php:196-213 | each part present is written under its own key as its own array |
| `Sections.NumericLabelRejected` | src/Blocks/Section.php:96-105 | a pair keyed "1" (stored by PHP as the integer 1) is a type error as written, and two fields as intended |
| `Sections.NamedKeysAgree` | src/Blocks/Section.php:96-105 | with string keys only, the map as written and as intended agree |
| `Sections.AllLabelledStep` | src/Blocks/Section.php:99-102 | every value is a string or null exactly when the first is and the rest are |
| `Sections.FieldMappedSucceeds` | src/Blocks/Section.php:96-105 | `fieldMap` succeeds exactly when twice the pairs fit in ten fields and every value is a string or null |
| `Sections.FieldMapped` | src/Blocks/Section.php:96-105 | a successful `fieldMap` adds two fields per pair and, when there are pairs, ends with at most ten fields; pairs that would pass ten fields fail |
| `Sections.FieldMappedAsWritten` | src/Blocks/Section.php:96-105 | as written, `fieldMap` succeeds only when every key is a string key, and then adds two fields per pair |
| `Sections.FieldMappedOrder` | src/Blocks/Section.php:96-105 | the fields held are kept and, pair by pair, the key's label and the value's text follow them |
| `Sections.SectionBlock.constructor` | src/Blocks/Section.php:35-42 | the block id and the text are set only when non-empty; the text becomes mrkdwn; no fields or accessory |
| `Sections.SectionBlock.SetText` | src/Blocks/Section.php:44-49 | sets the text only, and keeps the section well-formed |
| `Sections.SectionBlock.SetFields` | src/Blocks/Section.php:51-56 | holds the given fields list, adopted, with its fields unchanged |
| `Sections.SectionBlock.SetAccessory` | src/Blocks/Section.php:58-71 | sets the accessory exactly when `AccessoryCheck` passes; otherwise nothing changes |
| `Sections.SectionBlock.FieldMap` | src/Blocks/Section.php:96-105 | on success holds a new adopted fields list made as intended; on failure the fields are unchanged |
| `Sections.SectionBlock.Validate` | src/Blocks/Section.php:177-194 | gives `SectionVerdict` |
| `Sections.SectionBlock.ToArray` | src/Blocks/Section.php:196-213 | gives `SectionArray` |
| `Sections.AddPairs` | src/Blocks/Section.php:98-102 | the loop adding the pairs to a new list gives the map as intended |
| `Modals.InputScan` | src/Surfaces/Modal.php:93-100 | the loop's answer: true only when some block's type is 'input', false only when every block has a type and none is 'input'; a block without a type fails |
| `Modals.ModalVerdict` | src/Surfaces/Modal.php:84-104 | the surface checks decide first; then a missing title fails; it passes exactly when the surface passes, the title is 1 to 24 characters, and a submit label is set whenever an input block is present |
| `Modals.ModalPasses` | src/Surfaces/Modal.php:84-104 | a valid modal has 1 to 49 blocks with distinct block ids, a title of 1 to 24 characters, and a submit label if any block is an input |
| `Modals.SubmitRequired` | src/Surfaces/Modal.php:101-103 | a modal otherwise valid but holding an input block and no submit label fails with the submit message |
| `Modals.ModalPart` | src/Surfaces/Modal.php:106-129 | a missing title is a call on null; success needs the title to serialise |
| `Modals.ModalArray` | src/Surfaces/Modal.php:106-131 | a missing title fails first; success needs the modal's own part and the surface's array |
| `Modals.ModalPartShape` | src/Surfaces/Modal.php:108-129 | the modal's own part holds the title, and submit and close when set, each as its array, and the flags only when true |
| `Modals.ModalPartOnly` | src/Surfaces/Modal.php:108-129 | the modal's own part writes no other key |
| `Modals.ViewPartShape` | src/Surfaces/View.php:73-92 | the view's part holds callback, external id and private metadata each exactly when non-empty |
| `Modals.ViewPartOnly` | src/Surfaces/View.php:73-88 | the view's part writes no other key |
| `Modals.ModalArrayParts` | src/Surfaces/Modal.php:106-131 | in the serialised modal its own keys win over the view's, and the view's over the surface's; every other key is the surface's |
| `Modals.ModalArrayBlocks` | src/Surfaces/Surface.php:193-203 | a serialised modal is valid and its 'blocks' lists every block's array in order |
| `Modals.ContainsInput` | src/Surfaces/Modal.php:93-100 | the loop with its early `break` gives `InputScan` |
| `Modals.ModalView.constructor` | src/Surfaces/Modal.php:24-32 | no title, submit or close; both flags false; no view ids; no blocks |
| `Modals.ModalView.SetTitle` | src/Surfaces/Modal.php:34-39 | sets the title only |
| `Modals.ModalView.SetSubmit` | src/Surfaces/Modal.php:41-46 | sets the submit label only |
| `Modals.ModalView.SetClose` | src/Surfaces/Modal.php:48-53 | sets the close label only |
| `Modals.ModalView.Title` | src/Surfaces/Modal.php:55-58 | sets a new plain-text title only |
| `Modals.ModalView.Submit` | src/Surfaces/Modal.php:60-63 | sets a new plain-text submit label only |
| `Modals.ModalView.Close` | src/Surfaces/Modal.php:65-68 | sets a new plain-text close label only |
| `Modals.ModalView.ClearOnClose` | src/Surfaces/Modal.php:70-75 | sets the flag only |
| `Modals.ModalView.NotifyOnClose` | src/Surfaces/Modal.php:77-82 | sets the flag only |
| `Modals.ModalView.CallbackId` | src/Surfaces/View.php:34-39 | sets the callback id only |
| `Modals.ModalView.ExternalId` | src/Surfaces/View.php:44-49 | sets the external id only |
| `Modals.ModalView.PrivateMetadata` | src/Surfaces/View.php:54-59 | sets the private metadata only |
| `Modals.ModalView.Validate` | src/Surfaces/Modal.php:84-104 | gives `ModalVerdict` of the flattened blocks |
| `Modals.ModalView.ToArray` | src/Surfaces/Modal.php:106-131 | succeeds only for a valid modal |
| `Messages.FallbackPart` | src/Surfaces/Message.php:85-93 | no fallback writes nothing; a fallback writes its text under 'text' |
| `Messages.MessageVerdict` | src/Surfaces/Message.php:124-148 | directives other than the four accepted ones fail first; it passes exactly when the blocks (if any) pass the surface checks, every attachment is valid, a fallback text is non-empty, and at least one of blocks, attachments or text is present |
| `Messages.EmptyRefused` | src/Surfaces/Message.php:145-147 | a message with nothing in it fails as empty |
| `Messages.TextOnly` | src/Surfaces/Message.php:140-147 | a message of only a fallback text is valid exactly when the text is non-empty |
| `Messages.AttachmentsPart` | src/Surfaces/Message.php:154-159 | no attachments leave the array alone; otherwise it fails as an attachment does, or 'attachments' lists their arrays |
| `Messages.DropEmptyBlocks` | src/Surfaces/Message.php:161-163 | an empty or missing 'blocks' is removed; every other key is kept |
| `Messages.MessageArray` | src/Surfaces/Message.php:150-166 | the surface's failure is the message's failure |
| `Messages.DirectiveKeysOnly` | src/Surfaces/Message.php:17-27 | an accepted directive writes only its own key |
| `Messages.FallbackKeysOnly` | src/Surfaces/Message.php:85-93 | the fallback writes only 'text' and 'mrkdwn' |
| `Messages.MessageArrayLookup` | src/Surfaces/Message.php:152 | apart from 'blocks' and 'attachments', the directives win over the fallback text, and both over the surface |
| `Messages.FrontKeepsBlocks` | src/Surfaces/Message.php:152 | the directives and fallback never hide the surface's 'blocks' |
| `Messages.AttachmentsKeepBlocks` | src/Surfaces/Message.php:154-159 | adding the attachments keeps 'blocks' |
| `Messages.EmptyList` | src/Surfaces/Message.php:161 | `empty` of a list holds exactly when the list has no element |
| `Messages.BlocksInOutput` | src/Surfaces/Message.php:150-166 | 'blocks' is absent for a message without blocks, and otherwise lists every block's array |
| `Messages.AttachmentsInOutput` | src/Surfaces/Message.php:154-159 | with attachments, 'attachments' lists each one's array in order |
| `Messages.DirectiveAndTextInOutput` | src/Surfaces/Message.php:152 | the directive and the fallback text appear as set |
| `Messages.MessageOutput` | src/Surfaces/Message.php:150-166 | a message serialises only when valid |
| `Messages.MessageOutputParts` | src/Surfaces/Message.php:150-166 | a serialised message is valid and carries its blocks (when any), attachments, directive and fallback text as set |
| `Messages.MessageSurface.constructor` | src/Surfaces/Message.php:32-39 | no blocks, attachments, directives or fallback text |
| `Messages.MessageSurface.Ephemeral` | src/Surfaces/Message.php:46-49 | the directives become `response_type: ephemeral`; nothing else changes |
| `Messages.MessageSurface.InChannel` | src/Surfaces/Message.php:54-57 | the directives become `response_type: in_channel`; nothing else changes |
| `Messages.MessageSurface.ReplaceOriginal` | src/Surfaces/Message.php:62-65 | the directives become `replace_original: 'true'`; nothing else changes |
| `Messages.MessageSurface.DeleteOriginal` | src/Surfaces/Message.php:70-73 | the directives become `delete_original: 'true'`; nothing else changes |
| `Messages.MessageSurface.FallbackText` | src/Surfaces/Message.php:85-93 | sets the fallback text and its optional mrkdwn flag only |
| `Messages.MessageSurface.AddAttachment` | src/Surfaces/Message.php:95-100 | appends the attachment only |
| `Messages.MessageSurface.AsPreviewableMessage` | src/Surfaces/Message.php:115-122 | a new message with the same blocks, extras and attachments, and no directives or fallback text |
| `Messages.MessageSurface.Validate` | src/Surfaces/Message.php:124-148 | gives `MessageVerdict` of the flattened blocks |
| `Messages.MessageSurface.ToArray` | src/Surfaces/Message.php:150-166 | succeeds only for a valid message |
| `TextInputs.MinLengthCheck` | src/Inputs/TextInput.php:65-74 | `minLength` accepts exactly the lengths >= 0 |
| `TextInputs.MaxLengthCheck` | src/Inputs/TextInput.php:79-88 | `maxLength` accepts exactly the lengths >= 1 |
| `TextInputs.PlaceholderCheck` | src/Inputs/HasPlaceholder.php:30-37 | `placeholder` accepts exactly the strings of at most 150 characters |
| `TextInputs.TextInputVerdict` | src/Inputs/TextInput.php:122-141 | the placeholder is validated first; it passes exactly when the placeholder passes, a set minimum is at most 3000 and below a set maximum, and a dispatch configuration passes |
| `TextInputs.TextInputArray` | src/Inputs/TextInput.php:143-172 | fails as validation does; succeeds only for a valid input |
| `TextInputs.TextInputArrayParts` | src/Inputs/TextInput.php:143-172 | each own key holds its part when present, and is absent otherwise |
| `TextInputs.KeysDiffer` | src/Inputs/TextInput.php:143-172 | the seven keys written are distinct and none is 'type' |
| `TextInputs.BaseIsTag` | src/Element.php:106-118 | without extras the base array is just the type 'plain_text_input' |
| `TextInputs.ConfigUnder` | src/Inputs/TextInput.php:196-200 | an unset configuration reads as none; a non-array is a type error; an array goes to `DispatchActionConfig::fromArray` |
| `TextInputs.LengthsUnder` | src/Inputs/TextInput.php:184-190 | the two lengths are read through their setters' guards |
| `TextInputs.ReadRest` | src/Inputs/TextInput.php:184-200 | the reads after the first two keep what those gave and only produce values the setters accept |
| `TextInputs.ElementsUnder` | src/Inputs/TextInput.php:192-200 | the placeholder, the configuration and the action id as read |
| `TextInputs.FrontUnder` | src/Inputs/TextInput.php:176-182 | the initial value and the flag, as intended |
| `TextInputs.ReadFields` | src/Inputs/TextInput.php:174-201 | reading as intended: the initial value from 'initial_value', the flag from 'multiline', then the rest |
| `TextInputs.ReadFieldsAsWritten` | src/Inputs/TextInput.php:180-182 | as written the flag is never set, and a set 'multiline' goes into the initial value |
| `TextInputs.TextInputCompleted` | src/Element.php:180-194 | the closing `parent::hydrate` keeps the fields, checks the type, adds the unread keys, and requires validity |
| `TextInputs.TextInputHydrated` | src/Inputs/TextInput.php:174-203 | as intended, a hydrated input is valid and settable, with the flag read from 'multiline' and the initial value from 'initial_value' |
| `TextInputs.HydratedAsWritten` | src/Inputs/TextInput.php:174-203 | as written, a hydrated input never has the flag set |
| `TextInputs.TextInputFromData` | src/Element.php:152-175 | `fromArray` fails as the class resolution does, or else hydrates |
| `TextInputs.MultilineRejectedAsWritten` | src/Inputs/TextInput.php:180-182 | an array that hydrates as intended with 'multiline' set fails as written with a type error, the flag being a boolean |
| `TextInputs.Normalised` | src/Inputs/TextInput.php:151-153 | an empty action id or initial value is not written, so it reads back as unset |
| `TextInputs.RoundTrip` | src/Inputs/TextInput.php:143-203 | a serialisable input built through its setters reads back, as intended, to itself with empty strings unset |
| `TextInputs.TagAndNothingElse` | src/Inputs/TextInput.php:143-172 | the array has the type and no key other than its own |
| `TextInputs.OwnLookup` | src/Inputs/TextInput.php:147-169 | each own key holds its part |
| `TextInputs.NoneNull` | src/Inputs/TextInput.php:147-169 | no own key holds null |
| `TextInputs.ResolvesToTextInput` | src/Element.php:160-168 | an array typed 'plain_text_input' resolves to the text input class |
| `TextInputs.TextInputTag` | src/Type.php:180-251 | 'plain_text_input' and the text input class map to each other |
| `TextInputs.ReadsBack` | src/Inputs/TextInput.php:174-200 | the reads, as intended, give back the normalised fields |
| `TextInputs.ReadsScalars` | src/Inputs/TextInput.php:180-190 | the flag and both lengths read back as written |
| `TextInputs.ReadsParts` | src/Inputs/TextInput.php:192-200 | the placeholder and configuration read back as written |
| `TextInputs.Completes` | src/Element.php:180-194 | the closing `parent::hydrate` keeps the normalised fields of a serialised input |
| `TextInputs.EveryKeyRead` | src/Inputs/TextInput.php:174-201 | an array of only own, non-null keys and the type leaves nothing unread |
| `TextInputs.SerialisedMultilineRejectedAsWritten` | src/Inputs/TextInput.php:155-182 | an input with the flag set reads back as intended but fails as written |
| `TextInputs.MultilineInputExample` | src/Inputs/TextInput.php:180-182 | a concrete multiline input round-trips as intended and is rejected as written |
| `TextInputs.TextInputElement.constructor` | src/Inputs/InputElement.php:17-22 | nothing set except an action id when given and non-empty |
| `TextInputs.TextInputElement.ActionId` | src/Inputs/InputElement.php:27-32 | sets the action id only |
| `TextInputs.TextInputElement.InitialValue` | src/Inputs/TextInput.php:45-50 | sets the initial value only |
| `TextInputs.TextInputElement.Multiline` | src/Inputs/TextInput.php:55-60 | sets the flag only |
| `TextInputs.TextInputElement.MinLength` | src/Inputs/TextInput.php:65-74 | sets the minimum exactly when the guard passes; otherwise nothing changes |
| `TextInputs.TextInputElement.MaxLength` | src/Inputs/TextInput.php:79-88 | sets the maximum exactly when the guard passes; otherwise nothing changes |
| `TextInputs.TextInputElement.SetPlaceholder` | src/Inputs/HasPlaceholder.php:20-25 | sets the placeholder only |
| `TextInputs.TextInputElement.Placeholder` | src/Inputs/HasPlaceholder.php:30-37 | sets a new plain-text placeholder exactly when the string is short enough; otherwise nothing changes |
| `TextInputs.TextInputElement.SetDispatchActionConfig` | src/Inputs/TextInput.php:93-98 | sets the configuration only |
| `TextInputs.TextInputElement.Validate` | src/Inputs/TextInput.php:122-141 | gives `TextInputVerdict` |
| `TextInputs.TextInputElement.ToArray` | src/Inputs/TextInput.php:143-172 | gives `TextInputArray`; succeeds only for a valid input |
| `TextInputs.TextInputElement.Hydrate` | src/Inputs/TextInput.php:174-203 | on a new input, passes exactly when `TextInputHydrated` succeeds, and then holds its result |
| `TextInputs.TextInputElement.HydrateReads` | src/Inputs/TextInput.php:176-200 | the reads give `ReadFields` and consume exactly the keys set |
| `TextInputs.TextInputElement.HydrateFront` | src/Inputs/TextInput.php:176-182 | gives `FrontUnder` |
| `TextInputs.TextInputElement.HydrateRest` | src/Inputs/TextInput.php:184-200 | gives `ReadRest` |
| `TextInputs.TextInputElement.HydrateMin` | src/Inputs/TextInput.php:184-186 | reads the minimum through its guard |
| `TextInputs.TextInputElement.HydrateMax` | src/Inputs/TextInput.php:188-190 | reads the maximum through its guard |
| `TextInputs.TextInputElement.HydrateElements` | src/Inputs/TextInput.php:192-200 | gives `ElementsUnder` |
| `TextInputs.TextInputElement.HydrateFinish` | src/Element.php:180-194 | gives `TextInputCompleted` |
| `TextInputs.UseConfig` | src/Inputs/TextInput.php:196-200 | reads the configuration as `ConfigUnder` and consumes its key only when set |
| `TextInputs.FromArray` | src/Element.php:152-175 | succeeds exactly when `TextInputFromData` does, and then gives a new input holding its result |
| `RichTextLists.StyleCheck` | src/Partials/RichTextElements/RichTextList.php:61-70 | `setStyle` accepts exactly 'bullet' and 'ordered', and names any other style |
| `RichTextLists.IndentCheck` | src/Partials/RichTextElements/RichTextList.php:91-100 | `setIndent` accepts exactly the indents >= 0 |
| `RichTextLists.BorderCheck` | src/Partials/RichTextElements/RichTextList.php:105-114 | `setBorder` accepts exactly the borders >= 0 |
| `RichTextLists.ListVerdict` | src/Partials/RichTextElements/RichTextList.php:127-140 | a missing style fails first, then no elements; it passes exactly when a style is set and every section is valid and there is one |
| `RichTextLists.ListPayload` | src/Partials/RichTextElements/RichTextList.php:145-166 | what `toArray` writes succeeds exactly when every section serialises |
| `RichTextLists.ListArray` | src/Partials/RichTextElements/RichTextList.php:145-147 | an invalid list fails as validation does; a valid one fails because its class has no type in the type map |
| `RichTextLists.PayloadKeys` | src/Partials/RichTextElements/RichTextList.php:154-163 | 'indent' and 'border' are written exactly when set, and 'elements' and 'style' always |
| `RichTextLists.StyleUnder` | src/Partials/RichTextElements/RichTextList.php:175-177 | the style read is a string passed through `setStyle` |
| `RichTextLists.SectionUnder` | src/Partials/RichTextElements/RichTextList.php:190-200 | an entry without a type fails; a type other than 'rich_text_section' fails; otherwise the section is read |
| `RichTextLists.SectionsUnder` | src/Partials/RichTextElements/RichTextList.php:187-202 | unset 'elements' reads as none; a non-array is a type error; an array is read entry by entry |
| `RichTextLists.SectionsAreSections` | src/Partials/RichTextElements/RichTextList.php:190-196 | every entry read is typed 'rich_text_section' |
| `RichTextLists.ListReads` | src/Partials/RichTextElements/RichTextList.php:175-202 | the reads give a settable list with the style, indent, border and sections read |
| `RichTextLists.ScalarsUnder` | src/Partials/RichTextElements/RichTextList.php:175-185 | the style, indent and border as read through their setters |
| `RichTextLists.ListCompleted` | src/Element.php:180-194 | the checks of `Element::hydrate`, run after the reads as intended |
| `RichTextLists.ListHydrated` | src/Partials/RichTextElements/RichTextList.php:171-203 | as intended, a hydrated list is valid and settable, with a style and at least one section |
| `RichTextLists.HydrateNeverSucceedsAsWritten` | src/Partials/RichTextElements/RichTextList.php:173 | as written, `parent::hydrate` validates an empty list first, so hydration always fails |
| `RichTextLists.ListHydratedAsWritten` | src/Partials/RichTextElements/RichTextList.php:171-203 | as written, hydrating a new list always fails |
| `RichTextLists.BulletListExample` | src/Partials/RichTextElements/RichTextList.php:171-203 | a concrete bullet list with one section fails as written, and hydrates as intended only for a section reader that reads that section (this library's does not: see `RichTextLists.NoListWithRefusingReader`) |
| `RichTextLists.SectionTypeUnmapped` | src/Element.php:182-186 | the type check of `Element::hydrate`, which `RichTextSection::hydrate` runs first, fails for the type 'rich_text_section' with 'No class for type', whatever class reads it |
| `RichTextLists.HydratedListReadASection` | src/Partials/RichTextElements/RichTextList.php:185-201 | a list that hydrates, even in the intended order, read some array typed 'rich_text_section' successfully |
| `RichTextLists.NoListWithRefusingReader` | src/Partials/RichTextElements/RichTextList.php:185-201 | with a section reader that refuses every array typed 'rich_text_section', as `new RichTextSection()` and its `hydrate` do here, no list hydrates, even in the intended order |
| `RichTextLists.RichTextListElement.constructor` | src/Partials/RichTextElements/RichTextList.php:14-20 | no sections, style, indent or border |
| `RichTextLists.RichTextListElement.AddElement` | src/Partials/RichTextElements/RichTextList.php:25-30 | appends the section only |
| `RichTextLists.RichTextListElement.SetElements` | src/Partials/RichTextElements/RichTextList.php:37-46 | replaces the sections by the given ones |
| `RichTextLists.RichTextListElement.SetStyle` | src/Partials/RichTextElements/RichTextList.php:61-70 | sets the style exactly when the guard passes; otherwise nothing changes |
| `RichTextLists.RichTextListElement.Bullet` | src/Partials/RichTextElements/RichTextList.php:75-78 | sets the style 'bullet' |
| `RichTextLists.RichTextListElement.Ordered` | src/Partials/RichTextElements/RichTextList.php:83-86 | sets the style 'ordered' |
| `RichTextLists.RichTextListElement.SetIndent` | src/Partials/RichTextElements/RichTextList.php:91-100 | sets the indent exactly when the guard passes |
| `RichTextLists.RichTextListElement.SetBorder` | src/Partials/RichTextElements/RichTextList.php:105-114 | sets the border exactly when the guard passes |
| `RichTextLists.RichTextListElement.Validate` | src/Partials/RichTextElements/RichTextList.php:127-140 | gives `ListVerdict` |
| `RichTextLists.RichTextListElement.ToArray` | src/Partials/RichTextElements/RichTextList.php:145-166 | gives `ListArray` |
| `RichTextLists.RichTextListElement.Hydrate` | src/Partials/RichTextElements/RichTextList.php:171-203 | on a new list, passes exactly when `ListHydrated` succeeds, and then holds its result |
| `RichTextLists.RichTextListElement.HydrateReads` | src/Partials/RichTextElements/RichTextList.php:175-202 | gives `ListReads` |
| `RichTextLists.RichTextListElement.HydrateScalars` | src/Partials/RichTextElements/RichTextList.php:175-185 | gives `ScalarsUnder` |
| `RichTextLists.RichTextListElement.HydrateStyle` | src/Partials/RichTextElements/RichTextList.php:175-177 | gives `StyleUnder` and consumes 'style' only when set |
| `RichTextLists.RichTextListElement.HydrateIndent` | src/Partials/RichTextElements/RichTextList.php:179-181 | reads the indent through its guard |
| `RichTextLists.RichTextListElement.HydrateBorder` | src/Partials/RichTextElements/RichTextList.php:183-185 | reads the border through its guard |
| `RichTextLists.RichTextListElement.HydrateSections` | src/Partials/RichTextElements/RichTextList.php:187-202 | gives `SectionsUnder` |
| `RichTextLists.RichTextListElement.HydrateFinish` | src/Element.php:180-194 | gives `ListCompleted` |
| `RichTextLists.ListFromData` | src/Element.php:152-175 | `fromArray` fails as the class resolution does, or else hydrates as intended |
| `RichTextLists.FromArray` | src/Element.php:152-175 | fails as `ListFromData` does, or gives a new list holding its result |
| `RichTextTexts.EntryCheck` | src/Partials/RichTextElements/TextElements/Text.php:39-47 | an entry passes exactly when its key is bold, italic, strike or code and its value is a boolean; the key is checked first |
| `RichTextTexts.StyleVerdict` | src/Partials/RichTextElements/TextElements/Text.php:39-47 | passes exactly when every entry passes; otherwise fails as the first failing entry does |
| `RichTextTexts.CheckStyle` | src/Partials/RichTextElements/TextElements/Text.php:39-47 | the loop gives `StyleVerdict` |
| `RichTextTexts.FlagKeepsWellStyled` | src/Partials/RichTextElements/TextElements/Text.php:57-96 | setting one flag keeps a style that `setStyle` accepts acceptable |
| `RichTextTexts.RunVerdict` | src/Partials/RichTextElements/TextElements/Text.php:109-127 | an unset or empty text fails first; it passes exactly when the text is non-empty and any style is acceptable |
| `RichTextTexts.Flagged` | src/Partials/RichTextElements/TextElements/Text.php:57-63 | after a flag setter the key holds the flag and every other key is as before |
| `RichTextTexts.RunArray` | src/Partials/RichTextElements/TextElements/Text.php:132-142 | an invalid run fails as validation does; a valid one fails because its class has no type in the type map |
| `RichTextTexts.PayloadStyle` | src/Partials/RichTextElements/TextElements/Text.php:132-142 | the text is always written; 'style' is written exactly when set and non-empty, and then holds it |
| `RichTextTexts.RichTextRun.constructor` | src/Partials/RichTextElements/TextElements/Text.php:11-13 | no text and no style |
| `RichTextTexts.RichTextRun.Text` | src/Partials/RichTextElements/TextElements/Text.php:18-23 | sets the text only |
| `RichTextTexts.RichTextRun.SetStyle` | src/Partials/RichTextElements/TextElements/Text.php:36-52 | replaces the style exactly when `StyleVerdict` passes; otherwise nothing changes |
| `RichTextTexts.RichTextRun.Bold` | src/Partials/RichTextElements/TextElements/Text.php:57-63 | sets the 'bold' flag only |
| `RichTextTexts.RichTextRun.Italic` | src/Partials/RichTextElements/TextElements/Text.php:68-74 | sets the 'italic' flag only |
| `RichTextTexts.RichTextRun.Strike` | src/Partials/RichTextElements/TextElements/Text.php:79-85 | sets the 'strike' flag only |
| `RichTextTexts.RichTextRun.Code` | src/Partials/RichTextElements/TextElements/Text.php:90-96 | sets the 'code' flag only |
| `RichTextTexts.RichTextRun.Validate` | src/Partials/RichTextElements/TextElements/Text.php:109-127 | gives `RunVerdict` |
| `RichTextTexts.RichTextRun.ToArray` | src/Partials/RichTextElements/TextElements/Text.php:132-142 | gives `RunArray` |
| `Formatting.LongestMatch` | src/Formatter.php:46-50 | the `strtr` match at a position is a non-empty string key of the table that starts the text |
| `Formatting.CharEscaped` | src/Formatter.php:44-51 | the escaped text holds no '<' or '>', holds the bar character exactly when the text does, and a text without '&', '<' or '>' is unchanged |
| `Formatting.Escape` | src/Formatter.php:44-51 | `escape` replaces each '&', '<' and '>' by its entity and keeps every other character |
| `Formatting.EscapeMatch` | src/Formatter.php:46-50 | at each position the table matches exactly the three special characters |
| `Formatting.EscapeIsCharwise` | src/Formatter.php:44-51 | `strtr` over the three entities works character by character |
| `Formatting.UnescapeChar` | src/Formatter.php:44-51 | unescaping an escaped character gives it back, whatever follows |
| `Formatting.UnescapeEscape` | src/Formatter.php:44-51 | unescaping the escaped text gives the text back |
| `Formatting.Placeholder` | src/Formatter.php:60 | "{key}" is braced around the key's text |
| `Formatting.Replacements` | src/Formatter.php:58-61 | every key of the replacement table is braced; with values whose keys hold no '}', every key is a pattern |
| `Formatting.ReplacementOf` | src/Formatter.php:58-61 | for distinct key texts, "{key}" maps to its value |
| `Formatting.ReplacementsStep` | src/Formatter.php:59-61 | one more pass of the loop writes one more placeholder |
| `Formatting.Substitute` | src/Formatter.php:56-64 | the loop building the table, then `strtr`, gives `Sub` |
| `Formatting.PatternsStartOnce` | src/Formatter.php:63 | two placeholders starting the same text are the same |
| `Formatting.MatchOfPattern` | src/Formatter.php:63 | a placeholder of the table that starts the text is the match |
| `Formatting.SubReplaces` | src/Formatter.php:56-64 | "{key}" is replaced by its value and the rest of the text is substituted in turn |
| `Formatting.StrtrUntouched` | src/Formatter.php:63 | a table of braced keys leaves a text without '{' unchanged |
| `Formatting.Sub` | src/Formatter.php:56-64 | `sub` leaves a text without '{' unchanged |
| `Formatting.Wrap` | src/Formatter.php:101-119 | bold, italic and strike put the marker at both ends of the unchanged text |
| `Formatting.Bold` | src/Formatter.php:100-103 | `bold` puts '*' at both ends of the unchanged text |
| `Formatting.Italic` | src/Formatter.php:110-113 | `italic` puts '_' at both ends of the unchanged text |
| `Formatting.Strike` | src/Formatter.php:115-118 | `strike` puts '~' at both ends of the unchanged text |
| `Formatting.Code` | src/Formatter.php:106-109 | backticks around the escaped text, which holds no angle bracket and unescapes to the text |
| `Formatting.CodeBlock` | src/Formatter.php:149-152 | a fence line, the escaped text that unescapes to the text, and a closing fence |
| `Formatting.Link` | src/Formatter.php:121-124 | angle brackets around the escaped url and label, with no angle bracket inside |
| `Formatting.SplitAtFirstBar` | src/Formatter.php:123 | the first bar character separates a url without one from its label |
| `Formatting.LinkReadsBack` | src/Formatter.php:121-124 | a link with a url without the bar character reads back to the url and the optional label |
| `Formatting.Split` | src/Formatter.php:251-253 | `explode("\n")` gives at least one piece and no piece holds a newline |
| `Formatting.JoinSplit` | src/Formatter.php:251-253 | joining the pieces with newlines gives the text back |
| `Formatting.SplitAfterLine` | src/Formatter.php:251-253 | a newline-free start joins the first piece |
| `Formatting.SplitJoin` | src/Formatter.php:195 | splitting a non-empty join of newline-free lines gives the lines back |
| `Formatting.Explode` | src/Formatter.php:249-259 | a string is split on newlines, an array kept, anything else fails |
| `Formatting.Prefixed` | src/Formatter.php:177-185 | one prefixed line per line, in order |
| `Formatting.NonEmpty` | src/Formatter.php:189-193 | the filter keeps exactly the non-empty lines, and changes nothing when none is empty |
| `Formatting.NonEmptySingle` | src/Formatter.php:189-193 | the filter keeps one line exactly when it is not empty |
| `Formatting.NonEmptyAppend` | src/Formatter.php:189-193 | the filter works line by line: filtering two runs of lines gives the two filtered runs in order, every copy kept |
| `Formatting.Lines` | src/Formatter.php:175-196 | an invalid prefix fails; otherwise the result ends with a newline |
| `Formatting.LinesReadBack` | src/Formatter.php:175-196 | without the final newline, the result splits back into the kept prefixed lines |
| `Formatting.BlockQuote` | src/Formatter.php:136-139 | fails exactly for items that are neither text nor array |
| `Formatting.BulletedList` | src/Formatter.php:144-147 | fails exactly for items that are neither text nor array |
| `Formatting.NumberedList` | src/Formatter.php:157-166 | fails exactly for items that are neither text nor array |
| `Formatting.NumberItems` | src/Formatter.php:159-165 | the counting closure numbers the items from 1 in order, as "n. item" |
| `Formatting.BlockQuoteKeepsEveryLine` | src/Formatter.php:136-139 | every line of the text, even an empty one, comes out prefixed by "> " |
| `Formatting.BulletedListKeepsEveryItem` | src/Formatter.php:144-147 | every item comes out as "bullet item", in order |
| `Formatting.NumberedListNumbersEveryItem` | src/Formatter.php:157-166 | every item comes out numbered from 1, in order |

## Left out

- `hydrate` of modals and views (src/Surfaces/Modal.php:133-156, src/Surfaces/View.php:94-109), of messages (src/Surfaces/Message.php:168-185), of surfaces (src/Surfaces/Surface.php:205-212), of actions blocks (src/Blocks/Actions.php:150-157) and of sections (src/Blocks/Section.php:215-230): each hydrates children through `fromArray` of block and element classes outside this core. The hydration machinery they share (`HydrationData`, `Element::hydrate`, the extras) is modelled, and so are the element-level hydrations of texts, options, option lists and groups, dialogs, checkboxes, overflow menus, field lists, text inputs and rich-text lists.
- `View::encodePrivateMetadata` (src/Surfaces/View.php:68-71): JSON and base64 encoding of arbitrary PHP data; the private metadata is modelled as the string it produces.
- Parent links and aliasing: a container holds each child outside the core as a value snapshot (`Child`), so a later change to a child object through another reference is not seen by the container. `setParent` is modelled on the element base that every class owns.
- `TextInput::triggerActionOnEnter`, `triggerActionOnCharacterEntered` and `setDispatchActionConfig`'s argument (src/Inputs/TextInput.php:93-120): `DispatchActionConfig` is not part of this model; the configuration is a `Child`, and reading one back from an array is a parameter.
- `RichTextSection` and the rich-text element classes other than the list and the text run are not part of this model; reading a section back from an array is a parameter of the list's hydration. In this library the only reader is `new RichTextSection()` followed by its `hydrate` (src/Partials/RichTextElements/RichTextList.php:198-199), and that `hydrate` starts with `Element::hydrate` (src/Partials/RichTextElements/RichTextSection.php:90), whose type check throws 'No class for type' for 'rich_text_section', a type with no entry in the type map (src/Element.php:182-186, src/Type.php:243-251). Since the list accepts only elements of that type, no list hydrates with it, even in the intended order (`RichTextLists.NoListWithRefusingReader`); and a list has no serialised form to read back, `RichTextLists.ListArray` failing for every list. `RichTextLists.BulletListExample` and `RichTextLists.RichTextListElement.Hydrate` hold for a reader that reads a section, which this library does not have.
- Rich-text `Text::hydrate` (src/Partials/RichTextElements/TextElements/Text.php:147-158): like the list's, it calls `parent::hydrate` first, which validates the still empty run and throws; the hydration of a run is not modelled.
- `RichTextElement::createFromType` and `TextElement::createFromType` (src/Partials/RichTextElements/RichTextElement.php:34-44): dispatch to classes outside this model.
- `Formatter::date` and `Formatter::time` (src/Formatter.php:209-239): they read the clock and format dates.
- `Formatter::atChannel`, `atEveryone`, `atHere`, `channel`, `user` and `userGroup` (src/Formatter.php:67-99): fixed mention strings around an id, with nothing to state beyond their text.
- `Formatter::emailLink` (src/Formatter.php:126-129): it is `link` with "mailto:" put in front of the address, and `Formatting.Link` covers it.
- `Formatting.Substitute`: `sub` passes its values to `strtr` as they come, and `strtr` itself turns non-string values into strings; the model takes values that are already strings.
- `Formatting.NumberItems`: the `lines` prefix callback is modelled as a function of the line and its position, which covers the two closures the source passes (a fixed prefix and the counting closure of `numberedList`); arbitrary PHP callables are not modelled.
- `Element::toJson` and `fromJson` (src/Element.php:120-128): JSON text encoding and decoding are left out; the model stops at the PHP array.
- `Elements.ElementBase.Tap` and `TapIf`: the PHP callable is modelled as a function from the Element fields (parent and extras) to new ones; what a callable does to a subclass's own fields or to other objects is not modelled.
- The `Kit` and `Config` classes are not part of this model; the configured defaults for `emoji` and `verbatim` are parameters.
- The `new*`, `divider`, `text` and `header` helpers of surfaces and actions blocks (src/Surfaces/Surface.php:73-154, src/Blocks/Actions.php:45-105): each creates a block or element class outside this core and passes it to `add`, which is modelled. `Surface::blocks` (src/Surfaces/Surface.php:45-52) is a sequence of `add` calls.
- `Section::plainText`, `mrkdwnText`, `code` and `fieldList` (src/Blocks/Section.php:73-94): each is `setText` or `setFields` of a value built by `Texts` or `FieldLists`, both modelled. The `new*Accessory` helpers (src/Blocks/Section.php:107-175) create elements outside this core and pass them to `setAccessory`.
- `HasOptionGroups::optionGroup` (src/Partials/HasOptionGroups.php:42-45) and the label-and-options form of `optionGroups`: `OptionGroup::new` is outside this core, so the model adds option groups as `Child` summaries.
- `Message::newAttachment` (src/Surfaces/Message.php:102-108): the `Attachment` class is not part of this model; attachments are `Child` summaries.
- `Surface::validate` and `Actions::validate` count ids with `array_count_values` (src/Surfaces/Surface.php:176, src/Blocks/Actions.php:121). That function stores a decimal string id as an integer key, which does not change which ids count as duplicates, so the model compares the strings.
- `Modals.ModalView.ToArray`: its own contract states only that serialisation succeeds for a valid modal; the content is stated by `Modals.ModalArrayParts` and `Modals.ModalArrayBlocks`.
- `Messages.MessageSurface.ToArray`: its own contract states only that serialisation succeeds for a valid message; the content is stated by `Messages.MessageOutputParts` and the lemmas named beside it.
- `Sections.SectionArray`: its own contract states only its failures; the content is stated by `Sections.SectionArrayParts`.
- `new Actions($blockId, $elements)` is the constructor followed by `ActionBlocks.ActionsBlock.AddEach`; a refusal, which PHP throws from the constructor, is the outcome `AddEach` returns.
- Text formats of setter arguments: `Option::setText` and `setDescription` (src/Partials/Option.php:43-74) and `Modal::setTitle`, `setSubmit` and `setClose` (src/Surfaces/Modal.php:34-53) declare a `PlainText` parameter. The model types these arguments as a text of either format, so the `TypeError` PHP raises for a mrkdwn text there is not modelled. Hydration of an option reads its label and description back as plain texts, and the dialog's setters carry the restriction as a precondition.
- `getOptionsConfig` of classes outside this core (radio buttons and the select menus) returns the default `OptionsConfig` (src/Partials/HasOptions.php:33-36); the last arm of `OptionLists.PolicyOf` stands for these classes, and for no class of the core.
- Integer widths: PHP integers are 64-bit, and the lengths, counts and indices the model handles are unbounded integers.

## Findings

| source | as written | input that shows it | evidently intended | confidence | as-written member | corrected member |
|---|---|---|---|---|---|---|
| src/Partials/Option.php:146-148 | `hydrate` passes the 'url' entry to `value()`, so the url overwrites the value and is never set | `{"text": {"text": "Docs"}, "value": "docs", "url": "https://example.com"}` hydrates with value "https://example.com" and no url | the url is read into `url()`, and an option with a url survives `toArray` then `fromArray` | not executed | `Options.UrlLostAsWritten` | `Options.RoundTrip` |
| src/Inputs/TextInput.php:180-182 | `hydrate` passes the 'multiline' entry to `initialValue()`, whose string parameter refuses a boolean under strict types | `{"type": "plain_text_input", "multiline": true}`, the array of `TextInput::new()->multiline(true)`, fails to hydrate with a type error | the flag is read into `multiline()`, and every serialisable input hydrates back to itself | not executed | `TextInputs.SerialisedMultilineRejectedAsWritten` | `TextInputs.RoundTrip` |
| src/Blocks/Section.php:96-105 | `fieldMap` passes each key to `new MrkdwnText($key)`, but PHP stores a decimal string key such as "1" as an integer, which strict types refuse | `fieldMap(["1" => "one"])` throws a type error | the key becomes the label text, so the map gives the fields "1" and "one" | not executed | `Sections.NumericLabelRejected` | `Sections.FieldMappedOrder` |
| src/Partials/RichTextElements/RichTextList.php:171-203 | `hydrate` calls `parent::hydrate` first, which validates the still empty list, and only then reads the style and sections | `{"style": "bullet", "elements": [{"type": "rich_text_section"}]}` (no "type" key) fails with "RichTextList must have a style" | the list's own reads come first, so a list whose sections can be read hydrates (with this library's section reader none can: see "## Left out") | not executed | `RichTextLists.HydrateNeverSucceedsAsWritten` | `RichTextLists.RichTextListElement.Hydrate` |
