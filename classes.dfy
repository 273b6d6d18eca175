/**
 * The PHP classes of the builder that the model refers to, and the `extends`
 * relation between them. `is_a($a, $b, true)` and `instanceof` in the source
 * are `IsA` here.
 *
 * The files of AppHome, Attachment, Context, Divider, RadioButtons,
 * StaticSelectMenu and MultiStaticSelectMenu are not part of this model; their
 * parents are taken from the directory they live in (surfaces extend Surface,
 * blocks extend BlockElement, inputs extend InputElement, select menus extend
 * SelectMenu / MultiSelectMenu).
 */
module Classes {

  datatype Class =
    // abstract bases
    | Element | Surface | View | BlockElement | VirtualBlock | InputElement
    | SelectMenu | MultiSelectMenu | Text | RichTextElement | TextElement
    // surfaces
    | AppHome | Attachment | Message | Modal | WorkflowStep
    // blocks
    | Actions | Context | Divider | File | Header | Image | Input | Section
    | TwoColumnTable | RichText
    // inputs
    | Button | Checkboxes | DatePicker | OverflowMenu | RadioButtons
    | TextInput | TimePicker | NumberInput | RichTextInput
    // select menus
    | MultiChannelSelectMenu | MultiConversationSelectMenu | MultiExternalSelectMenu
    | MultiStaticSelectMenu | MultiUserSelectMenu
    | ChannelSelectMenu | ConversationSelectMenu | ExternalSelectMenu
    | StaticSelectMenu | UserSelectMenu
    // partials
    | Confirm | DispatchActionConfig | Fields | Filter | MrkdwnText | Option
    | OptionGroup | PlainText
    // rich text elements (Partials/RichTextElements)
    | RichTextSection | RichTextList | RichTextQuote | RichTextPreformatted
    | RichTextText

  /** The direct parent class (`extends`); Element is its own root. */
  function Parent(c: Class): Class {
    match c
    case Element => Element
    case Surface | BlockElement | InputElement | Text | RichTextElement
      | TextElement | Confirm | DispatchActionConfig | Fields | Filter
      | Option | OptionGroup => Element
    case View | Message | Attachment | WorkflowStep => Surface
    case AppHome | Modal => View
    case VirtualBlock | Actions | Context | Divider | File | Header | Image
      | Input | Section | RichText => BlockElement
    case TwoColumnTable => VirtualBlock
    case SelectMenu | Button | Checkboxes | DatePicker | OverflowMenu
      | RadioButtons | TextInput | TimePicker | NumberInput | RichTextInput => InputElement
    case MultiSelectMenu | ChannelSelectMenu | ConversationSelectMenu
      | ExternalSelectMenu | StaticSelectMenu | UserSelectMenu => SelectMenu
    case MultiChannelSelectMenu | MultiConversationSelectMenu
      | MultiExternalSelectMenu | MultiStaticSelectMenu | MultiUserSelectMenu => MultiSelectMenu
    case MrkdwnText | PlainText => Text
    case RichTextSection | RichTextList | RichTextQuote | RichTextPreformatted => RichTextElement
    case RichTextText => TextElement
  }

  /** Number of `extends` steps from c up to Element. */
  function Depth(c: Class): nat {
    match c
    case Element => 0
    case Surface | BlockElement | InputElement | Text | RichTextElement
      | TextElement | Confirm | DispatchActionConfig | Fields | Filter
      | Option | OptionGroup => 1
    case View | Message | Attachment | WorkflowStep | VirtualBlock | Actions
      | Context | Divider | File | Header | Image | Input | Section | RichText
      | SelectMenu | Button | Checkboxes | DatePicker | OverflowMenu
      | RadioButtons | TextInput | TimePicker | NumberInput | RichTextInput
      | MrkdwnText | PlainText | RichTextSection | RichTextList | RichTextQuote
      | RichTextPreformatted | RichTextText => 2
    case AppHome | Modal | TwoColumnTable | MultiSelectMenu | ChannelSelectMenu
      | ConversationSelectMenu | ExternalSelectMenu | StaticSelectMenu
      | UserSelectMenu => 3
    case MultiChannelSelectMenu | MultiConversationSelectMenu
      | MultiExternalSelectMenu | MultiStaticSelectMenu | MultiUserSelectMenu => 4
  }

  /** `is_a(c, d, true)`: c is d or one of its subclasses. */
  predicate IsA(c: Class, d: Class)
    decreases Depth(c)
  {
    c == d || (c != Element && IsA(Parent(c), d))
  }

  /** Classes declared `abstract` in the source: `new` on them fails. */
  predicate IsAbstract(c: Class) {
    match c
    case Element | Surface | View | BlockElement | VirtualBlock | InputElement
      | SelectMenu | MultiSelectMenu | Text | RichTextElement | TextElement => true
    case _ => false
  }

  /** Every class that is extended is abstract. */
  lemma ParentIsAbstract(c: Class)
    requires c != Element
    ensures IsAbstract(Parent(c)) && Depth(Parent(c)) < Depth(c)
  {
  }

  /** A concrete class has no subclass: only the class itself is one. */
  lemma {:induction false} ConcreteHasNoSubclass(c: Class, d: Class)
    requires IsA(c, d) && !IsAbstract(d)
    ensures c == d
    decreases Depth(c)
  {
    if c != d {
      ParentIsAbstract(c);
      ConcreteHasNoSubclass(Parent(c), d);
    }
  }

  /** PlainText and MrkdwnText are the only classes that extend Text directly. */
  lemma ParentIsText(c: Class)
    requires Parent(c) == Text
    ensures c == PlainText || c == MrkdwnText
  {
  }

  /** Text, PlainText and MrkdwnText are the whole Text hierarchy. */
  lemma {:induction false} TextFamily(c: Class)
    requires IsA(c, Text)
    ensures c == Text || c == PlainText || c == MrkdwnText
    decreases Depth(c)
  {
    if c != Text {
      ParentIsAbstract(c);
      TextFamily(Parent(c));
      ParentIsText(c);
    }
  }
}
