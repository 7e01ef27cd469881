/** The walk over a Gmail message's tree of parts, picking out the two bodies and the attachments. */
module MimeWalk {
  import opened Prelude

  datatype Body = Body(size: int, data: Option<string>, attachmentId: Option<string>)

  datatype Part = Part(mime: string, filename: string, body: Option<Body>, parts: seq<Part>)

  datatype Attachment = Attachment(id: string, filename: string, mime: string, size: int)

  function AsciiLower(s: string): string {
    seq(|s|, i requires 0 <= i < |s| => if 'A' <= s[i] <= 'Z' then s[i] + 32 as char else s[i])
  }

  const PLAIN := "text/plain"
  const HTML := "text/html"

  predicate Is(p: Part, kind: string) {
    AsciiLower(p.mime) == kind
  }

  /** The body as a string, where `text` is base64 and UTF-8 decoding, if it succeeds. */
  function Decoded(p: Part, text: string -> Option<string>): Option<string> {
    if p.body.Some? && p.body.value.data.Some? then text(p.body.value.data.value) else None
  }

  function AttachmentOf(p: Part, b: Body): Attachment {
    Attachment(match b.attachmentId case Some(id) => id case None => "", p.filename, p.mime, b.size)
  }

  /** The parts in the order the walk meets them: each before the parts inside it. */
  function Preorder(p: Part): seq<Part>
    decreases p
  {
    [p] + PreorderAll(p.parts)
  }

  function PreorderAll(ps: seq<Part>): seq<Part>
    decreases ps
  {
    if ps == [] then [] else PreorderAll(ps[..|ps| - 1]) + Preorder(ps[|ps| - 1])
  }

  // ----- what the walk should find -----

  /** The first part of the kind that decodes. */
  function FirstDecoded(parts: seq<Part>, kind: string, text: string -> Option<string>): Option<string> {
    if parts == [] then None
    else
      var before, p := FirstDecoded(parts[..|parts| - 1], kind, text), parts[|parts| - 1];
      if before.Some? || !Is(p, kind) then before else Decoded(p, text)
  }

  /** Whether a part is tried as a body, when the parts before it are these. */
  predicate Candidate(before: seq<Part>, p: Part, text: string -> Option<string>) {
    || (Is(p, PLAIN) && FirstDecoded(before, PLAIN, text).None?)
    || (Is(p, HTML) && FirstDecoded(before, HTML, text).None?)
  }

  /** The named parts with a body that were not tried as a body, in order. */
  function Attached(parts: seq<Part>, text: string -> Option<string>): seq<Attachment> {
    if parts == [] then []
    else
      var before, p := parts[..|parts| - 1], parts[|parts| - 1];
      Attached(before, text) +
      if p.filename != "" && p.body.Some? && !Candidate(before, p, text) then [AttachmentOf(p, p.body.value)] else []
  }

  /** The accumulators after the walk has met these parts. */
  ghost predicate Met(parts: seq<Part>, text: string -> Option<string>,
                      plain: Option<string>, html: Option<string>, attachments: seq<Attachment>) {
    && plain == FirstDecoded(parts, PLAIN, text)
    && html == FirstDecoded(parts, HTML, text)
    && attachments == Attached(parts, text)
  }

  /** The three accumulators that the recursion threads through. */
  class Walk {
    const text: string -> Option<string>
    var bodyText: Option<string>
    var bodyHtml: Option<string>
    var attachments: seq<Attachment>

    constructor (text: string -> Option<string>)
      ensures this.text == text && Met([], text, bodyText, bodyHtml, attachments)
    {
      this.text, bodyText, bodyHtml, attachments := text, None, None, [];
    }

    /** What the walk does with one part, before going into it. */
    method Visit(part: Part, ghost before: seq<Part>)
      requires Met(before, text, bodyText, bodyHtml, attachments)
      modifies this
      ensures Met(before + [part], text, bodyText, bodyHtml, attachments)
    {
      var mime := AsciiLower(part.mime);
      KindsDiffer();
      assert (before + [part])[..|before|] == before;
      assert attachments + [] == attachments;
      if mime == PLAIN && bodyText.None? {
        bodyText := if part.body.Some? then Decoded(part, text) else None;
      } else if mime == HTML && bodyHtml.None? {
        bodyHtml := if part.body.Some? then Decoded(part, text) else None;
      } else if part.filename != "" {
        if part.body.Some? {
          attachments := attachments + [AttachmentOf(part, part.body.value)];
        }
      }
    }

    method WalkParts(part: Part, ghost before: seq<Part>)
      requires Met(before, text, bodyText, bodyHtml, attachments)
      modifies this
      ensures Met(before + Preorder(part), text, bodyText, bodyHtml, attachments)
      decreases part
    {
      Visit(part, before);
      ghost var met := before + [part];
      assert met + PreorderAll(part.parts[..0]) == met;
      for i := 0 to |part.parts|
        invariant Met(met + PreorderAll(part.parts[..i]), text, bodyText, bodyHtml, attachments)
      {
        WalkParts(part.parts[i], met + PreorderAll(part.parts[..i]));
        OneMoreChild(met, part.parts, i);
      }
      assert part.parts[..|part.parts|] == part.parts;
      assert met + PreorderAll(part.parts) == before + Preorder(part);
    }
  }

  lemma OneMoreChild(met: seq<Part>, parts: seq<Part>, i: nat)
    requires i < |parts|
    ensures met + PreorderAll(parts[..i + 1]) == met + PreorderAll(parts[..i]) + Preorder(parts[i])
  {
    assert parts[..i + 1][..i] == parts[..i];
  }

  lemma KindsDiffer()
    ensures PLAIN != HTML
  {
    assert PLAIN[5] != HTML[5];
  }

  /** The walk of a whole message. */
  method Parts(payload: Part, text: string -> Option<string>)
    returns (plain: Option<string>, html: Option<string>, attachments: seq<Attachment>)
    ensures plain == FirstDecoded(Preorder(payload), PLAIN, text)
    ensures html == FirstDecoded(Preorder(payload), HTML, text)
    ensures attachments == Attached(Preorder(payload), text)
  {
    var walk := new Walk(text);
    walk.WalkParts(payload, []);
    assert [] + Preorder(payload) == Preorder(payload);
    return walk.bodyText, walk.bodyHtml, walk.attachments;
  }

  // ----- in terms of positions -----

  ghost predicate DecodesFirst(parts: seq<Part>, kind: string, text: string -> Option<string>, k: int) {
    && 0 <= k < |parts| && Is(parts[k], kind) && Decoded(parts[k], text).Some?
    && forall j | 0 <= j < k && Is(parts[j], kind) :: Decoded(parts[j], text).None?
  }

  /** "First": a part of the kind that decodes, and none before it does. */
  lemma {:induction false} FirstDecodedIsFirst(parts: seq<Part>, kind: string, text: string -> Option<string>)
    returns (k: int)
    ensures FirstDecoded(parts, kind, text).Some? ==>
              DecodesFirst(parts, kind, text, k) && Decoded(parts[k], text) == FirstDecoded(parts, kind, text)
    ensures FirstDecoded(parts, kind, text).None? ==>
              forall j | 0 <= j < |parts| && Is(parts[j], kind) :: Decoded(parts[j], text).None?
  {
    k := |parts| - 1;
    if parts != [] {
      var before := parts[..|parts| - 1];
      var k0 := FirstDecodedIsFirst(before, kind, text);
      if FirstDecoded(before, kind, text).Some? {
        k := k0;
      } else {
        assert forall j | 0 <= j < |before| && Is(parts[j], kind) :: Decoded(before[j], text).None?;
      }
    }
  }

  /** Up to the case of ASCII letters, the part is of the kind. */
  predicate OfKind(p: Part, kind: string) {
    && |p.mime| == |kind|
    && forall i | 0 <= i < |kind| ::
      p.mime[i] == kind[i] || ('A' <= p.mime[i] <= 'Z' && p.mime[i] as int + 32 == kind[i] as int)
  }

  /** What decoding the part's own data gives; a part without data gives nothing. */
  predicate Gives(p: Part, text: string -> Option<string>, v: Option<string>) {
    match p.body
    case Some(Body(_, Some(data), _)) => v == text(data)
    case _ => v == None
  }

  ghost predicate TextAt(parts: seq<Part>, kind: string, text: string -> Option<string>, k: int, v: string) {
    && 0 <= k < |parts| && OfKind(parts[k], kind) && Gives(parts[k], text, Some(v))
    && forall j | 0 <= j < k && OfKind(parts[j], kind) :: Gives(parts[j], text, None)
  }

  predicate LowerCase(kind: string) {
    forall i | 0 <= i < |kind| :: !('A' <= kind[i] <= 'Z')
  }

  lemma IsOfKind(p: Part, kind: string)
    requires LowerCase(kind)
    ensures Is(p, kind) <==> OfKind(p, kind)
  {
    var lower := AsciiLower(p.mime);
    if Is(p, kind) {
      assert forall i | 0 <= i < |kind| :: lower[i] == kind[i];
    }
    if OfKind(p, kind) {
      assert forall i | 0 <= i < |kind| :: lower[i] == kind[i];
    }
  }

  lemma DecodedGives(p: Part, text: string -> Option<string>)
    ensures forall v :: Decoded(p, text) == v <==> Gives(p, text, v)
  {
  }

  /** A body of the message is the text of the first part of its kind whose data decodes, and there is none
      exactly if the data of none does. */
  lemma BodiesAreTexts(parts: seq<Part>, kind: string, text: string -> Option<string>)
    requires kind == "text/plain" || kind == "text/html"
    ensures forall v :: FirstDecoded(parts, kind, text) == Some(v) <==> exists k :: TextAt(parts, kind, text, k, v)
    ensures FirstDecoded(parts, kind, text) == None <==>
              forall j | 0 <= j < |parts| && OfKind(parts[j], kind) :: Gives(parts[j], text, None)
  {
    var k := FirstDecodedIsFirst(parts, kind, text);
    forall j | 0 <= j < |parts|
      ensures Is(parts[j], kind) <==> OfKind(parts[j], kind)
      ensures forall v :: Decoded(parts[j], text) == v <==> Gives(parts[j], text, v)
    {
      IsOfKind(parts[j], kind);
      DecodedGives(parts[j], text);
    }
    var found := FirstDecoded(parts, kind, text);
    if found.Some? {
      assert TextAt(parts, kind, text, k, found.value);
    }
    forall v, i | TextAt(parts, kind, text, i, v)
      ensures found == Some(v)
    {
      assert found.Some?;
      assert i == k;
    }
  }

  /** A part is tried as a body exactly if it is of a body's kind and none of that kind before it
      decodes, whether or not it then decodes itself. */
  lemma CandidateIff(before: seq<Part>, p: Part, text: string -> Option<string>)
    ensures Candidate(before, p, text) <==>
              && (Is(p, PLAIN) || Is(p, HTML))
              && forall k | 0 <= k < |before| && Is(before[k], AsciiLower(p.mime)) :: Decoded(before[k], text).None?
  {
    var k := FirstDecodedIsFirst(before, AsciiLower(p.mime), text);
  }

  /** The part at position i is named, has a body, and is not tried as a body of the message. */
  ghost predicate Listed(parts: seq<Part>, i: int, text: string -> Option<string>) {
    0 <= i < |parts| && parts[i].filename != "" && parts[i].body.Some? && !Candidate(parts[..i], parts[i], text)
  }

  /** The attachment is the part's: its name, kind and size, and the id of its content if that is kept apart. */
  predicate Describes(a: Attachment, p: Part) {
    && p.body.Some? && a.filename == p.filename && a.mime == p.mime && a.size == p.body.value.size
    && a.id == match p.body.value.attachmentId case Some(id) => id case None => ""
  }

  /** One part more adds its attachment if it is listed, and does not change which others are. */
  lemma AttachedGrows(parts: seq<Part>, text: string -> Option<string>)
    requires parts != []
    ensures var before, last := parts[..|parts| - 1], |parts| - 1;
            && Attached(parts, text) == Attached(before, text)
                 + (if Listed(parts, last, text) then [AttachmentOf(parts[last], parts[last].body.value)] else [])
            && forall i ::
                 Listed(parts, i, text) <==> Listed(before, i, text) || (i == last && Listed(parts, last, text))
  {
    var before, last := parts[..|parts| - 1], |parts| - 1;
    assert Attached(before, text) + [] == Attached(before, text);
    forall i | 0 <= i < last
      ensures Listed(before, i, text) <==> Listed(parts, i, text)
    {
      assert before[..i] == parts[..i];
    }
  }

  lemma {:induction false} AttachedAt(parts: seq<Part>, text: string -> Option<string>) returns (at: seq<int>)
    ensures |at| == |Attached(parts, text)|
    ensures forall k | 0 <= k < |at| ::
              && Listed(parts, at[k], text)
              && Attached(parts, text)[k] == AttachmentOf(parts[at[k]], parts[at[k]].body.value)
    ensures forall j, k | 0 <= j < k < |at| :: at[j] < at[k]
    ensures forall i | Listed(parts, i, text) :: i in at
  {
    if parts == [] {
      at := [];
    } else {
      var before, last := parts[..|parts| - 1], |parts| - 1;
      at := AttachedAt(before, text);
      AttachedGrows(parts, text);
      if Listed(parts, last, text) {
        at := at + [last];
      }
    }
  }

  /** Where the k-th attachment was: later ones are further on, and every listed part is there. */
  lemma AttachedInOrder(parts: seq<Part>, text: string -> Option<string>) returns (at: seq<int>)
    ensures |at| == |Attached(parts, text)|
    ensures forall k | 0 <= k < |at| :: Listed(parts, at[k], text) && Describes(Attached(parts, text)[k], parts[at[k]])
    ensures forall j, k | 0 <= j < k < |at| :: at[j] < at[k]
    ensures forall i | Listed(parts, i, text) :: i in at
  {
    at := AttachedAt(parts, text);
  }

  /** The part at position i is a message body: of some kind, it is the first that decodes. */
  ghost predicate IsTheBody(parts: seq<Part>, i: int, text: string -> Option<string>) {
    DecodesFirst(parts, PLAIN, text, i) || DecodesFirst(parts, HTML, text, i)
  }

  /** A named part with a body is lost, neither listed nor a body of the message, if and only if it is
      of a body's kind, does not decode, and none of its kind before it decodes. */
  lemma LostIff(parts: seq<Part>, i: int, text: string -> Option<string>)
    requires 0 <= i < |parts| && parts[i].filename != "" && parts[i].body.Some?
    ensures !Listed(parts, i, text) && !IsTheBody(parts, i, text) <==>
              && (Is(parts[i], PLAIN) || Is(parts[i], HTML))
              && Decoded(parts[i], text).None?
              && forall k | 0 <= k < i && Is(parts[k], AsciiLower(parts[i].mime)) :: Decoded(parts[k], text).None?
    ensures !(Listed(parts, i, text) && IsTheBody(parts, i, text))
  {
    CandidateIff(parts[..i], parts[i], text);
    KindsDiffer();
    assert forall k | 0 <= k < i :: parts[..i][k] == parts[k];
  }

  /** So a text file attached ahead of any text body, whose content is not in the message itself, is
      lost: it is tried as the body, gives none, and is not listed. */
  lemma ALeadingTextFileIsLost(name: string, size: int, id: string, text: string -> Option<string>)
    ensures var file := Part(PLAIN, name, Some(Body(size, None, Some(id))), []);
            && Attached([file], text) == [] && FirstDecoded([file], PLAIN, text) == None
            && (name != "" ==> forall p | Is(p, PLAIN) && Decoded(p, text).Some? ::
                  Attached([p, file], text) == Attached([p], text) + [Attachment(id, name, PLAIN, size)])
  {
    var file := Part(PLAIN, name, Some(Body(size, None, Some(id))), []);
    assert AsciiLower(PLAIN) == PLAIN;
    assert [file][..0] == [];
    forall p | Is(p, PLAIN) && Decoded(p, text).Some? && name != ""
      ensures Attached([p, file], text) == Attached([p], text) + [Attachment(id, name, PLAIN, size)]
    {
      KindsDiffer();
      assert [p, file][..1] == [p] && [p][..0] == [];
    }
  }
}
