/** Assembly of the outbound attachment list: the optional inline logo first, then
    the caller's attachments that carry both a file name and base64 content. */
module Attachments {
  import opened Wrappers
  import opened Js

  type Bytes = seq<bv8>

  /** Base64 decoding (`Buffer.from(s, "base64")`) is library behaviour and stays
      uninterpreted: the caller supplies it. */
  type Decoder = string -> Bytes

  /** One object of the request's `attachments` array. */
  datatype AttachmentInput = AttachmentInput(
    filename: Option<string>,
    contentBase64: Option<string>,
    contentType: Option<string>)

  /** An element of the `attachments` array: an object, or JSON `null`. A string,
      number or array element has none of the three properties and is the same as
      an `Entry` whose fields are all `None`. */
  datatype Element = Entry(input: AttachmentInput) | Null

  /** The request's `attachments` field: missing, present but not an array, or an array. */
  datatype AttachmentsField = Absent | NotArray | Array(elements: seq<Element>)

  /** An attachment handed to the mail transport. `cid` is set only for the inline logo;
      an absent `contentType` lets the transport infer the MIME type. */
  datatype Outbound = Outbound(
    filename: string,
    content: Bytes,
    cid: Option<string>,
    contentType: Option<string>)

  const LogoFilename := "nxg-logo.png"
  const LogoCid := "nxgLogo"

  /** The message of the TypeError that reading `.filename` of `null` throws. */
  const NullAccessMessage := "Cannot read properties of null (reading 'filename')"

  /** The inline logo attachment for base64 text `logo`. */
  function LogoAttachment(logo: string, decode: Decoder): Outbound {
    Outbound(LogoFilename, decode(logo), Some(LogoCid), None)
  }

  /** What the logo step contributes: one attachment when the logo is truthy. */
  function LogoPart(logo: Option<string>, decode: Decoder): seq<Outbound> {
    if Truthy(logo) then [LogoAttachment(logo.value, decode)] else []
  }

  /** An element is forwarded when its file name and its content are both truthy. */
  predicate Sendable(e: Element) {
    e.Entry? && Truthy(e.input.filename) && Truthy(e.input.contentBase64)
  }

  /** The outbound form of element `e`, stated field by field: file name copied,
      content decoded, no cid, and the content type kept only when truthy. */
  ghost predicate Represents(a: Outbound, e: Element, decode: Decoder) {
    && Sendable(e)
    && a.filename == e.input.filename.value
    && a.content == decode(e.input.contentBase64.value)
    && a.cid == None
    && (Truthy(e.input.contentType) ==> a.contentType == e.input.contentType)
    && (!Truthy(e.input.contentType) ==> a.contentType == None)
  }

  /** The attachment pushed for a sendable element. */
  function Convert(e: Element, decode: Decoder): (a: Outbound)
    requires Sendable(e)
    ensures Represents(a, e, decode)
  {
    var ct := if Truthy(e.input.contentType) then e.input.contentType else None;
    Outbound(e.input.filename.value, decode(e.input.contentBase64.value), None, ct)
  }

  /** What one element contributes to the list. */
  function Step(e: Element, decode: Decoder): seq<Outbound> {
    if Sendable(e) then [Convert(e, decode)] else []
  }

  /** The caller attachments kept from `elements`, in order. */
  function Collect(elements: seq<Element>, decode: Decoder): (r: seq<Outbound>)
    ensures |r| <= |elements|
    ensures forall k :: 0 <= k < |r| ==> r[k].cid == None
  {
    if |elements| == 0 then []
    else Collect(elements[..|elements| - 1], decode) + Step(elements[|elements| - 1], decode)
  }

  /** Collecting is compositional: the kept entries of a concatenation are those of
      each part, in the same order. With `CollectSingle` this fixes the order of the
      output as the order of the input. */
  lemma {:induction false} CollectAppend(xs: seq<Element>, ys: seq<Element>, decode: Decoder)
    ensures Collect(xs + ys, decode) == Collect(xs, decode) + Collect(ys, decode)
    decreases |ys|
  {
    if |ys| == 0 {
      assert xs + ys == xs;
    } else {
      var init := ys[..|ys| - 1];
      var last := ys[|ys| - 1];
      assert (xs + ys)[..|xs + ys| - 1] == xs + init;
      assert (xs + ys)[|xs + ys| - 1] == last;
      CollectAppend(xs, init, decode);
    }
  }

  /** A single element yields its outbound form when it is sendable, and nothing otherwise. */
  lemma CollectSingle(e: Element, decode: Decoder)
    ensures Sendable(e) ==> |Collect([e], decode)| == 1 && Represents(Collect([e], decode)[0], e, decode)
    ensures !Sendable(e) ==> Collect([e], decode) == []
  {
  }

  /** An attachment is kept exactly when it represents some sendable input element. */
  lemma {:induction false} CollectMembership(elements: seq<Element>, decode: Decoder, a: Outbound)
    ensures a in Collect(elements, decode) <==>
            exists i :: 0 <= i < |elements| && Represents(a, elements[i], decode)
    decreases |elements|
  {
    if |elements| > 0 {
      var init := elements[..|elements| - 1];
      var last := elements[|elements| - 1];
      CollectMembership(init, decode, a);
      if a in Collect(elements, decode) {
        if a in Collect(init, decode) {
          var i :| 0 <= i < |init| && Represents(a, init[i], decode);
          assert elements[i] == init[i];
        } else {
          assert a in Step(last, decode);
          assert Represents(a, elements[|elements| - 1], decode);
        }
      }
      if exists i :: 0 <= i < |elements| && Represents(a, elements[i], decode) {
        var i :| 0 <= i < |elements| && Represents(a, elements[i], decode);
        if i < |elements| - 1 {
          assert init[i] == elements[i];
          assert a in Collect(init, decode);
        } else {
          assert a == Convert(last, decode);
        }
      }
    }
  }

  /** The request contains a `null` element that the loop will read `.filename` of. */
  predicate HasNull(f: AttachmentsField) {
    f.Array? && exists i :: 0 <= i < |f.elements| && f.elements[i] == Null
  }

  /** The list the handler assembles, or the TypeError thrown on a `null` element. */
  function Assemble(logo: Option<string>, f: AttachmentsField, decode: Decoder): (r: Result<seq<Outbound>, string>)
    ensures r.Err? <==> HasNull(f)
    ensures r.Err? ==> r.error == NullAccessMessage
    ensures r.Ok? ==> |r.value| <= 1 + (if f.Array? then |f.elements| else 0)
    ensures r.Ok? && !f.Array? ==> |r.value| <= 1
    ensures r.Ok? && Truthy(logo) ==> |r.value| >= 1 && r.value[0] == LogoAttachment(logo.value, decode)
    ensures r.Ok? ==> forall k :: (if Truthy(logo) then 1 else 0) <= k < |r.value| ==> r.value[k].cid == None
  {
    if HasNull(f) then Err(NullAccessMessage)
    else Ok(LogoPart(logo, decode) + (if f.Array? then Collect(f.elements, decode) else []))
  }

  /** Every assembled attachment is either the inline logo or the outbound form of a
      sendable caller element, and each of those is present. */
  lemma AssembleMembership(logo: Option<string>, f: AttachmentsField, decode: Decoder, a: Outbound)
    requires !HasNull(f)
    ensures a in Assemble(logo, f, decode).value <==>
            || (Truthy(logo) && a == LogoAttachment(logo.value, decode))
            || (f.Array? && exists i :: 0 <= i < |f.elements| && Represents(a, f.elements[i], decode))
  {
    if f.Array? {
      CollectMembership(f.elements, decode, a);
    }
  }

  /** Only the logo carries the logo's cid: without a truthy logo no attachment has it. */
  lemma NoLogoNoCid(logo: Option<string>, f: AttachmentsField, decode: Decoder)
    requires !HasNull(f)
    ensures Truthy(logo) <==> exists k :: 0 <= k < |Assemble(logo, f, decode).value| && Assemble(logo, f, decode).value[k].cid == Some(LogoCid)
  {
    if Truthy(logo) {
      assert Assemble(logo, f, decode).value[0].cid == Some(LogoCid);
    }
  }

  /** Extending the input by one element extends the kept list by that element's step. */
  lemma CollectPrefixStep(elements: seq<Element>, i: nat, decode: Decoder)
    requires i < |elements|
    ensures Collect(elements[..i + 1], decode) == Collect(elements[..i], decode) + Step(elements[i], decode)
  {
    assert elements[..i + 1][..i] == elements[..i];
  }

  /** The `forEach` over the caller's array: push each sendable element in turn;
      reading `.filename` of a `null` element throws. */
  method CollectLoop(es: seq<Element>, decode: Decoder) returns (r: Result<seq<Outbound>, string>)
    ensures r.Err? <==> exists j :: 0 <= j < |es| && es[j] == Null
    ensures r.Err? ==> r.error == NullAccessMessage
    ensures r.Ok? ==> r.value == Collect(es, decode)
  {
    var pushed: seq<Outbound> := [];
    var i := 0;
    while i < |es|
      invariant 0 <= i <= |es|
      invariant pushed == Collect(es[..i], decode)
      invariant forall j :: 0 <= j < i ==> es[j] != Null
    {
      var e := es[i];
      if e == Null {
        return Err(NullAccessMessage);
      }
      CollectPrefixStep(es, i, decode);
      pushed := pushed + Step(e, decode);
      i := i + 1;
    }
    assert es[..i] == es;
    r := Ok(pushed);
  }

  /** The handler's imperative assembly: push the logo, then run the caller loop
      when `attachments` is an array. */
  method AssembleAttachments(logo: Option<string>, f: AttachmentsField, decode: Decoder)
    returns (r: Result<seq<Outbound>, string>)
    ensures r == Assemble(logo, f, decode)
  {
    var pushed: seq<Outbound> := [];
    if Truthy(logo) {
      pushed := pushed + [LogoAttachment(logo.value, decode)];
    }
    assert pushed == LogoPart(logo, decode);
    if f.Array? {
      var kept := CollectLoop(f.elements, decode);
      if kept.Err? {
        assert HasNull(f);
        return Err(kept.error);
      }
      assert !HasNull(f);
      pushed := pushed + kept.value;
    } else {
      assert LogoPart(logo, decode) + [] == LogoPart(logo, decode);
    }
    r := Ok(pushed);
  }
}
