/**
 * The message surface (src/Surfaces/Message.php): blocks, attachments and
 * a legacy fallback text, plus at most one response directive. Its blocks
 * live in a `SurfaceBody` it owns; attachments are outside this model and
 * are held as `Child` summaries.
 */
module Messages {
  import opened Classes
  import opened Outcomes
  import opened Wire
  import opened Types
  import opened Elements
  import opened Texts
  import opened Surfaces

  /** The four directives a message may carry, each a one-entry array. */
  const EPHEMERAL: Dict<Value> := [Entry(Name("response_type"), Str("ephemeral"))]
  const IN_CHANNEL: Dict<Value> := [Entry(Name("response_type"), Str("in_channel"))]
  const REPLACE_ORIGINAL: Dict<Value> := [Entry(Name("replace_original"), Str("true"))]
  const DELETE_ORIGINAL: Dict<Value> := [Entry(Name("delete_original"), Str("true"))]

  const VALID_DIRECTIVES: seq<Dict<Value>> := [EPHEMERAL, IN_CHANNEL, REPLACE_ORIGINAL, DELETE_ORIGINAL]

  /** The keys a directive may use. */
  function DirectiveKeys(): set<Key> {
    {Name("response_type"), Name("replace_original"), Name("delete_original")}
  }

  /** No directive, or exactly one of the four (the strict `in_array` compares keys, values and order). */
  predicate DirectivesAccepted(directives: Dict<Value>) {
    directives == [] || directives in VALID_DIRECTIVES
  }

  /** The fallback text and its optional mrkdwn flag, as `fallbackText` stores them. */
  datatype Fallback = Fallback(text: string, mrkdwn: Option<bool>)

  /** The array `fallbackText` builds: 'text', then 'mrkdwn' when the flag is given; empty when never set. */
  function FallbackPart(f: Option<Fallback>): (d: Dict<Value>)
    ensures f.None? ==> d == []
    ensures f.Some? ==> Lookup(d, Name("text")) == Some(Str(f.value.text))
  {
    if f.None? then []
    else if f.value.mrkdwn.None? then [Entry(Name("text"), Str(f.value.text))]
    else [Entry(Name("text"), Str(f.value.text)), Entry(Name("mrkdwn"), Bool(f.value.mrkdwn.value))]
  }

  /**
   * `Message::validate`: the directives; the surface checks, only when
   * there are blocks; each attachment; the fallback text, when set; and at
   * least one of the three kinds of content.
   */
  function MessageVerdict(directives: Dict<Value>, bs: seq<Child>, attachments: seq<Child>, fallback: Option<Fallback>): (r: Outcome)
    ensures !DirectivesAccepted(directives) ==> r == Fail(InvalidDirectives)
    ensures r.Pass? <==> (DirectivesAccepted(directives) &&
                          (bs != [] ==> SurfaceVerdict(bs).Pass?) &&
                          (forall i :: 0 <= i < |attachments| ==> attachments[i].valid.Pass?) &&
                          (fallback.Some? ==> fallback.value.text != "") &&
                          (bs != [] || attachments != [] || fallback.Some?))
  {
    if !DirectivesAccepted(directives) then Fail(InvalidDirectives)
    else if bs != [] && SurfaceVerdict(bs).Fail? then SurfaceVerdict(bs)
    else if ChildrenVerdict(attachments).Fail? then ChildrenVerdict(attachments)
    else if fallback.Some? && ValidateString(Some(fallback.value.text), None, 1).Fail? then
      ValidateString(Some(fallback.value.text), None, 1)
    else if bs == [] && attachments == [] && fallback.None? then Fail(EmptyMessage)
    else Pass
  }

  /** A message with accepted directives and nothing in it is refused for being empty. */
  lemma EmptyRefused(directives: Dict<Value>)
    requires DirectivesAccepted(directives)
    ensures MessageVerdict(directives, [], [], None) == Fail(EmptyMessage)
  {
  }

  /** A message of text alone validates exactly when the text is not empty; no blocks are needed. */
  lemma TextOnly(directives: Dict<Value>, f: Fallback)
    requires DirectivesAccepted(directives)
    ensures MessageVerdict(directives, [], [], Some(f)).Pass? <==> f.text != ""
  {
  }

  /** `$data['attachments']`: each attachment's array, in order, when there are any. */
  function AttachmentsPart(d: Dict<Value>, attachments: seq<Child>): (r: Result<Dict<Value>>)
    ensures attachments == [] ==> r == Ok(d)
    ensures attachments != [] && MapAll(attachments, ChildValue).Err? ==> r == Err(MapAll(attachments, ChildValue).error)
    ensures attachments != [] && MapAll(attachments, ChildValue).Ok? ==>
      r == Ok(Put(d, Name("attachments"), Arr(List(MapAll(attachments, ChildValue).value))))
  {
    if attachments == [] then Ok(d)
    else
      var vs :- MapAll(attachments, ChildValue);
      Ok(Put(d, Name("attachments"), Arr(List(vs))))
  }

  /** `if (empty($data['blocks'])) unset($data['blocks'])`. */
  function DropEmptyBlocks(d: Dict<Value>): (r: Dict<Value>)
    ensures forall k :: k != Name("blocks") ==> Lookup(r, k) == Lookup(d, k)
    ensures Lookup(r, Name("blocks")) ==
      if Lookup(d, Name("blocks")).None? || IsEmpty(Lookup(d, Name("blocks")).value) then None else Lookup(d, Name("blocks"))
  {
    if Lookup(d, Name("blocks")).None? || IsEmpty(Lookup(d, Name("blocks")).value) then Remove(d, Name("blocks")) else d
  }

  /**
   * `Message::toArray`: directives, then the fallback text, then the
   * surface's output (validated by `Message::validate`), each counting only
   * for keys not already present; then the attachments; then 'blocks'
   * dropped when it is empty.
   */
  function MessageArray(directives: Dict<Value>, fallback: Option<Fallback>, attachments: seq<Child>,
                        surface: Result<Dict<Value>>): (r: Result<Dict<Value>>)
    ensures surface.Err? ==> r == Err(surface.error)
  {
    var s :- surface;
    var withAttachments :- AttachmentsPart(Union(Union(directives, FallbackPart(fallback)), s), attachments);
    Ok(DropEmptyBlocks(withAttachments))
  }

  /** The keys a message writes before its surface part are not 'blocks' or 'attachments'. */
  lemma OwnKeysApart()
    ensures Name("blocks") != Name("attachments")
    ensures Name("blocks") !in DirectiveKeys() && Name("attachments") !in DirectiveKeys()
    ensures Name("text") !in DirectiveKeys() && Name("mrkdwn") !in DirectiveKeys()
    ensures Name("text") != Name("blocks") && Name("text") != Name("attachments")
    ensures Name("mrkdwn") != Name("blocks") && Name("mrkdwn") != Name("attachments")
  {
    assert "blocks"[0] != "attachments"[0];
    assert "blocks"[0] != "response_type"[0] && "blocks"[0] != "replace_original"[0] && "blocks"[0] != "delete_original"[0];
    assert "attachments"[0] != "response_type"[0] && "attachments"[0] != "replace_original"[0];
    assert "attachments"[0] != "delete_original"[0];
    assert "text"[0] != "response_type"[0] && "text"[0] != "replace_original"[0] && "text"[0] != "delete_original"[0];
    assert "mrkdwn"[0] != "response_type"[0] && "mrkdwn"[0] != "replace_original"[0] && "mrkdwn"[0] != "delete_original"[0];
    assert "text"[0] != "blocks"[0] && "text"[0] != "attachments"[0];
    assert "mrkdwn"[0] != "blocks"[0] && "mrkdwn"[0] != "attachments"[0];
  }

  /** An accepted directive array uses only directive keys. */
  lemma DirectiveKeysOnly(directives: Dict<Value>, k: Key)
    requires DirectivesAccepted(directives)
    requires k !in DirectiveKeys()
    ensures !HasKey(directives, k)
  {
    assert Keys(EPHEMERAL) == [Name("response_type")] && Keys(IN_CHANNEL) == [Name("response_type")];
    assert Keys(REPLACE_ORIGINAL) == [Name("replace_original")] && Keys(DELETE_ORIGINAL) == [Name("delete_original")];
  }

  /** The fallback array uses only 'text' and 'mrkdwn'. */
  lemma FallbackKeysOnly(f: Option<Fallback>, k: Key)
    requires k != Name("text") && k != Name("mrkdwn")
    ensures !HasKey(FallbackPart(f), k)
  {
    if f.Some? && f.value.mrkdwn.Some? {
      assert Keys(FallbackPart(f)) == [Name("text"), Name("mrkdwn")];
    } else if f.Some? {
      assert Keys(FallbackPart(f)) == [Name("text")];
    }
  }

  /**
   * Outside 'blocks' and 'attachments', the output of an accepted message
   * shows its directive, then its fallback text, then the surface's output.
   */
  lemma MessageArrayLookup(directives: Dict<Value>, fallback: Option<Fallback>, attachments: seq<Child>,
                           surface: Result<Dict<Value>>, k: Key)
    requires MessageArray(directives, fallback, attachments, surface).Ok?
    requires k != Name("blocks") && k != Name("attachments")
    ensures Lookup(MessageArray(directives, fallback, attachments, surface).value, k) ==
      if HasKey(directives, k) then Lookup(directives, k)
      else if HasKey(FallbackPart(fallback), k) then Lookup(FallbackPart(fallback), k)
      else Lookup(surface.value, k)
  {
    var front := Union(directives, FallbackPart(fallback));
    var merged := Union(front, surface.value);
    UnionLookup(front, surface.value, k);
    UnionLookup(directives, FallbackPart(fallback), k);
    if attachments != [] {
      PutLookup(merged, Name("attachments"), Arr(List(MapAll(attachments, ChildValue).value)), k);
    }
  }

  /** The directive and the fallback text never hide the surface's 'blocks'. */
  lemma FrontKeepsBlocks(directives: Dict<Value>, fallback: Option<Fallback>, s: Dict<Value>)
    requires DirectivesAccepted(directives)
    ensures Lookup(Union(Union(directives, FallbackPart(fallback)), s), Name("blocks")) == Lookup(s, Name("blocks"))
  {
    OwnKeysApart();
    DirectiveKeysOnly(directives, Name("blocks"));
    FallbackKeysOnly(fallback, Name("blocks"));
    UnionLookup(Union(directives, FallbackPart(fallback)), s, Name("blocks"));
    UnionLookup(directives, FallbackPart(fallback), Name("blocks"));
  }

  /** Writing the attachments leaves 'blocks' as it was. */
  lemma AttachmentsKeepBlocks(d: Dict<Value>, attachments: seq<Child>)
    requires AttachmentsPart(d, attachments).Ok?
    ensures Lookup(AttachmentsPart(d, attachments).value, Name("blocks")) == Lookup(d, Name("blocks"))
  {
    OwnKeysApart();
    if attachments != [] {
      PutLookup(d, Name("attachments"), Arr(List(MapAll(attachments, ChildValue).value)), Name("blocks"));
    }
  }

  /** A list is `empty()` exactly when it has no items. */
  lemma EmptyList(vs: seq<Value>)
    ensures IsEmpty(Arr(List(vs))) <==> vs == []
  {
    assert |Values(List(vs))| == |List(vs)|;
  }

  /** The blocks of an accepted message appear under 'blocks', in order, unless there are none. */
  lemma BlocksInOutput(directives: Dict<Value>, fallback: Option<Fallback>, attachments: seq<Child>,
                       valid: Outcome, extra: Extras, bs: seq<Child>)
    requires DirectivesAccepted(directives)
    requires MessageArray(directives, fallback, attachments, SurfaceArray(Message, valid, extra, bs)).Ok?
    ensures MapAll(bs, ChildValue).Ok?
    ensures Lookup(MessageArray(directives, fallback, attachments, SurfaceArray(Message, valid, extra, bs)).value, Name("blocks")) ==
      if bs == [] then None else Some(Arr(List(MapAll(bs, ChildValue).value)))
  {
    var s := SurfaceArray(Message, valid, extra, bs).value;
    var merged := Union(Union(directives, FallbackPart(fallback)), s);
    FrontKeepsBlocks(directives, fallback, s);
    AttachmentsKeepBlocks(merged, attachments);
    EmptyList(MapAll(bs, ChildValue).value);
  }

  /** The attachments of a message appear under 'attachments', in order, when there are any. */
  lemma AttachmentsInOutput(directives: Dict<Value>, fallback: Option<Fallback>, attachments: seq<Child>,
                            surface: Result<Dict<Value>>)
    requires MessageArray(directives, fallback, attachments, surface).Ok?
    requires attachments != []
    ensures MapAll(attachments, ChildValue).Ok?
    ensures Lookup(MessageArray(directives, fallback, attachments, surface).value, Name("attachments")) ==
      Some(Arr(List(MapAll(attachments, ChildValue).value)))
  {
    OwnKeysApart();
    var merged := Union(Union(directives, FallbackPart(fallback)), surface.value);
    PutLookup(merged, Name("attachments"), Arr(List(MapAll(attachments, ChildValue).value)), Name("attachments"));
  }

  /** The directive of an accepted message and its fallback text are in the output as set. */
  lemma DirectiveAndTextInOutput(directives: Dict<Value>, fallback: Option<Fallback>, attachments: seq<Child>,
                                 surface: Result<Dict<Value>>)
    requires DirectivesAccepted(directives)
    requires MessageArray(directives, fallback, attachments, surface).Ok?
    ensures directives != [] ==>
      Lookup(MessageArray(directives, fallback, attachments, surface).value, directives[0].key) == Some(directives[0].val)
    ensures fallback.Some? ==>
      Lookup(MessageArray(directives, fallback, attachments, surface).value, Name("text")) == Some(Str(fallback.value.text))
  {
    OwnKeysApart();
    if directives != [] {
      assert directives[0].key in DirectiveKeys();
      MessageArrayLookup(directives, fallback, attachments, surface, directives[0].key);
    }
    if fallback.Some? {
      DirectiveKeysOnly(directives, Name("text"));
      MessageArrayLookup(directives, fallback, attachments, surface, Name("text"));
    }
  }

  /** `Message::toArray` with the surface part validated by `Message::validate`. */
  function MessageOutput(directives: Dict<Value>, fallback: Option<Fallback>, attachments: seq<Child>,
                         extra: Extras, bs: seq<Child>): (r: Result<Dict<Value>>)
    ensures r.Ok? ==> MessageVerdict(directives, bs, attachments, fallback).Pass?
  {
    MessageArray(directives, fallback, attachments,
                 SurfaceArray(Message, MessageVerdict(directives, bs, attachments, fallback), extra, bs))
  }

  /**
   * A serialised message is a valid one; it carries its directive and its
   * fallback text as set, each attachment's array in order when there are
   * attachments, and its blocks' arrays in order, with 'blocks' left out
   * when there are no blocks.
   */
  lemma MessageOutputParts(directives: Dict<Value>, fallback: Option<Fallback>, attachments: seq<Child>,
                           extra: Extras, bs: seq<Child>)
    requires MessageOutput(directives, fallback, attachments, extra, bs).Ok?
    ensures MessageVerdict(directives, bs, attachments, fallback).Pass?
    ensures MapAll(bs, ChildValue).Ok?
    ensures Lookup(MessageOutput(directives, fallback, attachments, extra, bs).value, Name("blocks")) ==
      if bs == [] then None else Some(Arr(List(MapAll(bs, ChildValue).value)))
    ensures attachments != [] ==> (MapAll(attachments, ChildValue).Ok? &&
      Lookup(MessageOutput(directives, fallback, attachments, extra, bs).value, Name("attachments")) ==
        Some(Arr(List(MapAll(attachments, ChildValue).value))))
    ensures directives != [] ==>
      Lookup(MessageOutput(directives, fallback, attachments, extra, bs).value, directives[0].key) == Some(directives[0].val)
    ensures fallback.Some? ==>
      Lookup(MessageOutput(directives, fallback, attachments, extra, bs).value, Name("text")) == Some(Str(fallback.value.text))
  {
    var valid := MessageVerdict(directives, bs, attachments, fallback);
    var sa := SurfaceArray(Message, valid, extra, bs);
    BlocksInOutput(directives, fallback, attachments, valid, extra, bs);
    if attachments != [] {
      AttachmentsInOutput(directives, fallback, attachments, sa);
    }
    DirectiveAndTextInOutput(directives, fallback, attachments, sa);
  }

  /** A message: its blocks (a surface it owns), attachments, directive and fallback text. */
  class MessageSurface {
    const surface: SurfaceBody
    var attachments: seq<Child>
    var directives: Dict<Value>
    var fallback: Option<Fallback>

    ghost predicate Valid()
      reads this, surface, surface.base
    {
      surface.cls == Message && surface.Valid()
    }

    /** `new Message()`: nothing in it yet. */
    constructor()
      ensures fresh(surface) && fresh(surface.base) && surface.held == [] && surface.base.extra == []
      ensures attachments == [] && directives == [] && fallback == None
      ensures Valid()
    {
      surface := new SurfaceBody(Message);
      attachments, directives, fallback := [], [], None;
    }

    /** PHP `clone`: the same blocks, attachments, directive and fallback text, in a new object. */
    constructor Clone(body: SurfaceBody, attachments: seq<Child>, directives: Dict<Value>, fallback: Option<Fallback>)
      ensures surface == body && this.attachments == attachments
      ensures this.directives == directives && this.fallback == fallback
    {
      surface := body;
      this.attachments, this.directives, this.fallback := attachments, directives, fallback;
    }

    /** `ephemeral`: the directive becomes response_type = ephemeral, whatever it was. */
    method Ephemeral()
      modifies this
      ensures directives == EPHEMERAL
      ensures attachments == old(attachments) && fallback == old(fallback)
    {
      directives := EPHEMERAL;
    }

    /** `inChannel`: the directive becomes response_type = in_channel, whatever it was. */
    method InChannel()
      modifies this
      ensures directives == IN_CHANNEL
      ensures attachments == old(attachments) && fallback == old(fallback)
    {
      directives := IN_CHANNEL;
    }

    /** `replaceOriginal`: the directive becomes replace_original = "true", whatever it was. */
    method ReplaceOriginal()
      modifies this
      ensures directives == REPLACE_ORIGINAL
      ensures attachments == old(attachments) && fallback == old(fallback)
    {
      directives := REPLACE_ORIGINAL;
    }

    /** `deleteOriginal`: the directive becomes delete_original = "true", whatever it was. */
    method DeleteOriginal()
      modifies this
      ensures directives == DELETE_ORIGINAL
      ensures attachments == old(attachments) && fallback == old(fallback)
    {
      directives := DELETE_ORIGINAL;
    }

    /** `fallbackText`: replaces the text and the flag. */
    method FallbackText(message: string, mrkdwn: Option<bool>)
      modifies this
      ensures fallback == Some(Fallback(message, mrkdwn))
      ensures attachments == old(attachments) && directives == old(directives)
    {
      fallback := Some(Fallback(message, mrkdwn));
    }

    /** `addAttachment`: appended last. */
    method AddAttachment(a: Child)
      modifies this
      ensures attachments == old(attachments) + [a]
      ensures directives == old(directives) && fallback == old(fallback)
    {
      attachments := attachments + [a];
    }

    /**
     * `asPreviewableMessage`: a copy with no directive and no fallback text;
     * the message itself is left as it was.
     */
    method AsPreviewableMessage() returns (c: MessageSurface)
      ensures fresh(c) && fresh(c.surface) && fresh(c.surface.base)
      ensures c.directives == [] && c.fallback == None && c.attachments == attachments
      ensures c.surface.cls == surface.cls && c.surface.held == surface.held && c.surface.base.extra == surface.base.extra
      ensures Valid() ==> c.Valid()
    {
      var body := surface.Copy();
      c := new MessageSurface.Clone(body, attachments, directives, fallback);
      c.directives := [];
      c.fallback := None;
    }

    /** `validate`, check by check. */
    method Validate() returns (r: Outcome)
      ensures r == MessageVerdict(directives, Flatten(surface.held), attachments, fallback)
    {
      if directives != [] && directives !in VALID_DIRECTIVES {
        return Fail(InvalidDirectives);
      }
      var bs := surface.GetBlocks();
      var hasBlocks := bs != [];
      if hasBlocks {
        r := surface.Validate();
        if r.Fail? {
          return;
        }
      }
      var hasAttachments := attachments != [];
      r := ValidateChildren(attachments);
      if r.Fail? {
        return;
      }
      var hasText := fallback.Some?;
      if hasText {
        r := ValidateString(Some(fallback.value.text), None, 1);
        if r.Fail? {
          return;
        }
      }
      if !(hasBlocks || hasAttachments || hasText) {
        return Fail(EmptyMessage);
      }
      return Pass;
    }

    /** `toArray`. */
    function ToArray(): (r: Result<Dict<Value>>)
      reads this, surface, surface.base
      ensures r.Ok? ==> MessageVerdict(directives, Flatten(surface.held), attachments, fallback).Pass?
    {
      MessageOutput(directives, fallback, attachments, surface.base.extra, Flatten(surface.held))
    }
  }
}
