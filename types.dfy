/**
 * The type registry (src/Type.php): the wire tag of every concrete element
 * class, the reverse lookup, and the allow-lists of which element kinds each
 * container accepts.
 */
module Types {
  import opened Classes
  import opened Outcomes

  // Surfaces
  const APP_HOME := "home"
  const ATTACHMENT := "attachment"
  const MESSAGE := "message"
  const MODAL := "modal"
  const WORKFLOW_STEP := "workflow_step"
  // Blocks
  const ACTIONS := "actions"
  const CONTEXT := "context"
  const DIVIDER := "divider"
  const FILE := "file"
  const HEADER := "header"
  const IMAGE := "image"
  const INPUT := "input"
  const SECTION := "section"
  // Inputs
  const BUTTON := "button"
  const CHECKBOXES := "checkboxes"
  const DATEPICKER := "datepicker"
  const TEXT_INPUT := "plain_text_input"
  const TIMEPICKER := "timepicker"
  const OVERFLOW_MENU := "overflow"
  const RADIO_BUTTONS := "radio_buttons"
  const NUMBER_INPUT := "number_input"
  // Select menus
  const MULTI_SELECT_MENU_CHANNELS := "multi_channels_select"
  const MULTI_SELECT_MENU_CONVERSATIONS := "multi_conversations_select"
  const MULTI_SELECT_MENU_EXTERNAL := "multi_external_select"
  const MULTI_SELECT_MENU_STATIC := "multi_static_select"
  const MULTI_SELECT_MENU_USERS := "multi_users_select"
  const SELECT_MENU_CHANNELS := "channels_select"
  const SELECT_MENU_CONVERSATIONS := "conversations_select"
  const SELECT_MENU_EXTERNAL := "external_select"
  const SELECT_MENU_STATIC := "static_select"
  const SELECT_MENU_USERS := "users_select"
  // Partials
  const CONFIRM := "confirm"
  const DISPATCH_ACTION_CONFIG := "dispatch_action_config"
  const FIELDS := "fields"
  const FILTER := "filter"
  const MRKDWNTEXT := "mrkdwn"
  const OPTION := "option"
  const OPTION_GROUP := "option_group"
  const PLAINTEXT := "plain_text"

  /** The block kinds each surface accepts, keyed by the surface's tag. */
  function SurfaceBlocks(surface: string): (r: Option<seq<string>>)
    ensures r.Some? <==> surface in {APP_HOME, ATTACHMENT, MESSAGE, MODAL, WORKFLOW_STEP}
  {
    if surface == APP_HOME then Some([ACTIONS, CONTEXT, DIVIDER, HEADER, IMAGE, SECTION])
    else if surface == ATTACHMENT then Some([ACTIONS, CONTEXT, DIVIDER, FILE, HEADER, IMAGE, INPUT, SECTION])
    else if surface == MESSAGE then Some([ACTIONS, CONTEXT, DIVIDER, FILE, HEADER, IMAGE, SECTION])
    else if surface == MODAL then Some([ACTIONS, CONTEXT, DIVIDER, HEADER, IMAGE, INPUT, SECTION])
    else if surface == WORKFLOW_STEP then Some([ACTIONS, CONTEXT, DIVIDER, HEADER, IMAGE, INPUT, SECTION])
    else None
  }

  const ACCESSORY_ELEMENTS: seq<string> := [
    BUTTON, CHECKBOXES, DATEPICKER, IMAGE,
    MULTI_SELECT_MENU_CHANNELS, MULTI_SELECT_MENU_CONVERSATIONS, MULTI_SELECT_MENU_EXTERNAL,
    MULTI_SELECT_MENU_STATIC, MULTI_SELECT_MENU_USERS,
    OVERFLOW_MENU, RADIO_BUTTONS,
    SELECT_MENU_CHANNELS, SELECT_MENU_CONVERSATIONS, SELECT_MENU_EXTERNAL,
    SELECT_MENU_STATIC, SELECT_MENU_USERS,
    TEXT_INPUT, TIMEPICKER]

  const ACTION_ELEMENTS: seq<string> := [
    BUTTON, CHECKBOXES, DATEPICKER, OVERFLOW_MENU, RADIO_BUTTONS,
    SELECT_MENU_CHANNELS, SELECT_MENU_CONVERSATIONS, SELECT_MENU_EXTERNAL,
    SELECT_MENU_STATIC, SELECT_MENU_USERS,
    TEXT_INPUT, TIMEPICKER]

  /** Tags whose elements are serialised without a "type" key. */
  const HIDDEN_TYPES: seq<string> := [
    ATTACHMENT, CONFIRM, DISPATCH_ACTION_CONFIG, FIELDS, FILTER, MESSAGE, OPTION, OPTION_GROUP]

  /**
   * The `$typeMap` table: the tag of each registered class. Abstract bases,
   * the rich-text block and input, and the rich-text element classes have no
   * entry.
   */
  function TypeMap(c: Class): Option<string> {
    match c
    case AppHome => Some(APP_HOME)
    case Attachment => Some(ATTACHMENT)
    case Message => Some(MESSAGE)
    case Modal => Some(MODAL)
    case WorkflowStep => Some(WORKFLOW_STEP)
    case Actions => Some(ACTIONS)
    case Context => Some(CONTEXT)
    case Divider => Some(DIVIDER)
    case File => Some(FILE)
    case Header => Some(HEADER)
    case Image => Some(IMAGE)
    case Input => Some(INPUT)
    case Section => Some(SECTION)
    case TwoColumnTable => Some(SECTION)
    case Button => Some(BUTTON)
    case Checkboxes => Some(CHECKBOXES)
    case DatePicker => Some(DATEPICKER)
    case OverflowMenu => Some(OVERFLOW_MENU)
    case RadioButtons => Some(RADIO_BUTTONS)
    case TextInput => Some(TEXT_INPUT)
    case TimePicker => Some(TIMEPICKER)
    case NumberInput => Some(NUMBER_INPUT)
    case MultiChannelSelectMenu => Some(MULTI_SELECT_MENU_CHANNELS)
    case MultiConversationSelectMenu => Some(MULTI_SELECT_MENU_CONVERSATIONS)
    case MultiExternalSelectMenu => Some(MULTI_SELECT_MENU_EXTERNAL)
    case MultiStaticSelectMenu => Some(MULTI_SELECT_MENU_STATIC)
    case MultiUserSelectMenu => Some(MULTI_SELECT_MENU_USERS)
    case ChannelSelectMenu => Some(SELECT_MENU_CHANNELS)
    case ConversationSelectMenu => Some(SELECT_MENU_CONVERSATIONS)
    case ExternalSelectMenu => Some(SELECT_MENU_EXTERNAL)
    case StaticSelectMenu => Some(SELECT_MENU_STATIC)
    case UserSelectMenu => Some(SELECT_MENU_USERS)
    case Confirm => Some(CONFIRM)
    case DispatchActionConfig => Some(DISPATCH_ACTION_CONFIG)
    case Fields => Some(FIELDS)
    case Filter => Some(FILTER)
    case MrkdwnText => Some(MRKDWNTEXT)
    case Option => Some(OPTION)
    case OptionGroup => Some(OPTION_GROUP)
    case PlainText => Some(PLAINTEXT)
    case _ => None
  }

  /** A class with an entry in the table. */
  predicate Registered(c: Class) {
    TypeMap(c).Some?
  }

  /**
   * `array_search($tag, $typeMap, true)`: the first class whose tag matches.
   * TwoColumnTable shares the tag 'section' with Section, which comes first,
   * so it is never found.
   */
  function SearchTypeMap(t: string): (r: Option<Class>)
    ensures r != Some(TwoColumnTable)
  {
    match t
    case "home" => Some(AppHome)
    case "attachment" => Some(Attachment)
    case "message" => Some(Message)
    case "modal" => Some(Modal)
    case "workflow_step" => Some(WorkflowStep)
    case "actions" => Some(Actions)
    case "context" => Some(Context)
    case "divider" => Some(Divider)
    case "file" => Some(File)
    case "header" => Some(Header)
    case "image" => Some(Image)
    case "input" => Some(Input)
    case "section" => Some(Section)
    case "button" => Some(Button)
    case "checkboxes" => Some(Checkboxes)
    case "datepicker" => Some(DatePicker)
    case "overflow" => Some(OverflowMenu)
    case "radio_buttons" => Some(RadioButtons)
    case "plain_text_input" => Some(TextInput)
    case "timepicker" => Some(TimePicker)
    case "number_input" => Some(NumberInput)
    case "multi_channels_select" => Some(MultiChannelSelectMenu)
    case "multi_conversations_select" => Some(MultiConversationSelectMenu)
    case "multi_external_select" => Some(MultiExternalSelectMenu)
    case "multi_static_select" => Some(MultiStaticSelectMenu)
    case "multi_users_select" => Some(MultiUserSelectMenu)
    case "channels_select" => Some(ChannelSelectMenu)
    case "conversations_select" => Some(ConversationSelectMenu)
    case "external_select" => Some(ExternalSelectMenu)
    case "static_select" => Some(StaticSelectMenu)
    case "users_select" => Some(UserSelectMenu)
    case "confirm" => Some(Confirm)
    case "dispatch_action_config" => Some(DispatchActionConfig)
    case "fields" => Some(Fields)
    case "filter" => Some(Filter)
    case "mrkdwn" => Some(MrkdwnText)
    case "option" => Some(Option)
    case "option_group" => Some(OptionGroup)
    case "plain_text" => Some(PlainText)
    case _ => None
  }

  /** `Type::mapClass`: the tag of a registered class; throws for any other. */
  function MapClass(c: Class): (r: Result<string>)
    ensures r.Ok? <==> Registered(c)
    ensures r.Ok? ==> TypeMap(c) == Some(r.value)
    ensures r.Err? ==> r.error == NoTypeForClass(c)
  {
    match TypeMap(c)
    case Some(t) => Ok(t)
    case None => Err(NoTypeForClass(c))
  }

  /** `Type::mapType`: the first class registered under a tag; throws for an unknown tag. */
  function MapType(t: string): (r: Result<Class>)
    ensures r.Err? ==> r.error == NoClassForType(t)
  {
    match SearchTypeMap(t)
    case Some(c) => Ok(c)
    case None => Err(NoClassForType(t))
  }

  /** `in_array($tag, Type::HIDDEN_TYPES, true)`. */
  predicate Hidden(tag: string) {
    tag in HIDDEN_TYPES
  }

  /** Every tag some class is registered under. */
  const TAGS: set<string> := {
    APP_HOME, ATTACHMENT, MESSAGE, MODAL, WORKFLOW_STEP,
    ACTIONS, CONTEXT, DIVIDER, FILE, HEADER, IMAGE, INPUT, SECTION,
    BUTTON, CHECKBOXES, DATEPICKER, OVERFLOW_MENU, RADIO_BUTTONS, TEXT_INPUT, TIMEPICKER, NUMBER_INPUT,
    MULTI_SELECT_MENU_CHANNELS, MULTI_SELECT_MENU_CONVERSATIONS, MULTI_SELECT_MENU_EXTERNAL,
    MULTI_SELECT_MENU_STATIC, MULTI_SELECT_MENU_USERS,
    SELECT_MENU_CHANNELS, SELECT_MENU_CONVERSATIONS, SELECT_MENU_EXTERNAL,
    SELECT_MENU_STATIC, SELECT_MENU_USERS,
    CONFIRM, DISPATCH_ACTION_CONFIG, FIELDS, FILTER, MRKDWNTEXT, OPTION, OPTION_GROUP, PLAINTEXT}

  /** TAGS holds exactly the tags of the table. */
  lemma TagsOfRegisteredClasses(c: Class)
    requires Registered(c)
    ensures TypeMap(c).value in TAGS
  {
  }

  /** `mapType` throws on a tag no class is registered under. */
  lemma MapTypeRejectsUnknownTags(t: string)
    requires t !in TAGS
    ensures MapType(t) == Err(NoClassForType(t))
  {
  }

  /** `mapType` resolves every tag some class is registered under. */
  lemma MapTypeAcceptsKnownTags(t: string)
    requires t in TAGS
    ensures MapType(t).Ok?
  {
  }

  /** 'section' maps back to Section, the first class registered under it, not to TwoColumnTable. */
  lemma SectionMapsToSection()
    ensures MapClass(TwoColumnTable) == Ok(SECTION)
    ensures MapType(SECTION) == Ok(Section)
  {
  }

  /** `mapType(mapClass(c)) == c` for each surface and block class. */
  lemma InvertsSurfacesAndBlocks(c: Class)
    requires c in {AppHome, Attachment, Message, Modal, WorkflowStep, Actions, Context, Divider, File, Header, Image, Input}
    ensures MapType(MapClass(c).value) == Ok(c)
  {
  }

  /** `mapType(mapClass(c)) == c` for each input element class. */
  lemma InvertsInputs(c: Class)
    requires c in {Section, Button, Checkboxes, DatePicker, OverflowMenu, RadioButtons, TextInput, TimePicker}
    ensures MapType(MapClass(c).value) == Ok(c)
  {
  }

  /** `mapType(mapClass(c)) == c` for each multi-select menu class. */
  lemma InvertsMultiMenus(c: Class)
    requires c in {NumberInput, MultiChannelSelectMenu, MultiConversationSelectMenu, MultiExternalSelectMenu, MultiStaticSelectMenu}
    ensures MapType(MapClass(c).value) == Ok(c)
  {
  }

  /** `mapType(mapClass(c)) == c` for each select menu class. */
  lemma InvertsMenus(c: Class)
    requires c in {MultiUserSelectMenu, ChannelSelectMenu, ConversationSelectMenu, ExternalSelectMenu, StaticSelectMenu}
    ensures MapType(MapClass(c).value) == Ok(c)
  {
  }

  /** `mapType(mapClass(c)) == c` for each composition object class. */
  lemma InvertsPartials(c: Class)
    requires c in {UserSelectMenu, Confirm, DispatchActionConfig, Fields}
    ensures MapType(MapClass(c).value) == Ok(c)
  {
  }

  /** `mapType(mapClass(c)) == c` for each option and text class. */
  lemma InvertsTexts(c: Class)
    requires c in {Filter, MrkdwnText, Option, OptionGroup, PlainText}
    ensures MapType(MapClass(c).value) == Ok(c)
  {
  }

  /** Every registered class but TwoColumnTable is found again from its own tag. */
  lemma MapTypeInvertsMapClass(c: Class)
    requires Registered(c) && c != TwoColumnTable
    ensures MapType(MapClass(c).value) == Ok(c)
  {
    if c in {AppHome, Attachment, Message, Modal, WorkflowStep, Actions, Context, Divider, File, Header, Image, Input} { InvertsSurfacesAndBlocks(c); }
    if c in {Section, Button, Checkboxes, DatePicker, OverflowMenu, RadioButtons, TextInput, TimePicker} { InvertsInputs(c); }
    if c in {NumberInput, MultiChannelSelectMenu, MultiConversationSelectMenu, MultiExternalSelectMenu, MultiStaticSelectMenu} { InvertsMultiMenus(c); }
    if c in {MultiUserSelectMenu, ChannelSelectMenu, ConversationSelectMenu, ExternalSelectMenu, StaticSelectMenu} { InvertsMenus(c); }
    if c in {UserSelectMenu, Confirm, DispatchActionConfig, Fields} { InvertsPartials(c); }
    if c in {Filter, MrkdwnText, Option, OptionGroup, PlainText} { InvertsTexts(c); }
  }

  /** The App Home surface accepts neither input nor file blocks; a message accepts file but not input. */
  lemma SurfaceRestrictions()
    ensures INPUT !in SurfaceBlocks(APP_HOME).value && FILE !in SurfaceBlocks(APP_HOME).value
    ensures FILE in SurfaceBlocks(MESSAGE).value && INPUT !in SurfaceBlocks(MESSAGE).value
    ensures INPUT in SurfaceBlocks(MODAL).value
  {
  }

  /** An element allowed in an actions block is also allowed as a section accessory. */
  lemma ActionElementsAreAccessories(tag: string)
    requires tag in ACTION_ELEMENTS
    ensures tag in ACCESSORY_ELEMENTS
  {
  }
}
