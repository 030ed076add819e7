/** The focus-mode details dialog: its local name and tag list, the edits to
    the tag list, the payload it sends on create or update, and the labels
    that depend on its mode. */
module Focus {
  import opened Json

  datatype Tag = Tag(tagId: int, name: string)

  datatype FocusMode = FocusMode(focusId: int, name: string, tags: seq<Tag>)

  /** The request body: `focusId` is present only when updating. */
  datatype FocusPayload = FocusPayload(name: string, tags: seq<Tag>, focusId: Option<int>)

  /** The one mode value that turns the dialog into an editor. */
  const EditMode: string := "edit"

  /** Adding a tag: it goes at the end, everything before it stays, and no
      duplicate check is made (a tag already present is counted twice). */
  function WithTag(tags: seq<Tag>, tag: Tag): (r: seq<Tag>)
    ensures |r| == |tags| + 1
    ensures r[..|tags|] == tags && r[|tags|] == tag
    ensures multiset(r) == multiset(tags) + multiset{tag}
  {
    tags + [tag]
  }

  /** Removing a tag: no tag with the given id is left, and a list without
      that id is returned as is. */
  function WithoutTag(tags: seq<Tag>, tagId: int): (r: seq<Tag>)
    ensures forall i :: 0 <= i < |r| ==> r[i].tagId != tagId
    ensures (forall i :: 0 <= i < |tags| ==> tags[i].tagId != tagId) ==> r == tags
  {
    if tags == [] then []
    else
      var rest := WithoutTag(tags[1..], tagId);
      if tags[0].tagId == tagId then rest else [tags[0]] + rest
  }

  /** Every tag with another id stays, as many times as it was there. */
  lemma {:induction false} WithoutTagKeepsOthers(tags: seq<Tag>, tagId: int)
    ensures forall t: Tag :: t.tagId != tagId ==> multiset(WithoutTag(tags, tagId))[t] == multiset(tags)[t]
  {
    if tags != [] {
      WithoutTagKeepsOthers(tags[1..], tagId);
      assert tags == [tags[0]] + tags[1..];
    }
  }

  /** `a` is `b` with some elements left out, the rest in their order. */
  ghost predicate SubsequenceOf(a: seq<Tag>, b: seq<Tag>)
    decreases |b|
  {
    if b == [] then a == []
    else (a != [] && a[0] == b[0] && SubsequenceOf(a[1..], b[1..])) || SubsequenceOf(a, b[1..])
  }

  /** Removing a tag keeps the remaining tags in their original order. */
  lemma {:induction false} WithoutTagKeepsOrder(tags: seq<Tag>, tagId: int)
    ensures SubsequenceOf(WithoutTag(tags, tagId), tags)
  {
    if tags != [] {
      WithoutTagKeepsOrder(tags[1..], tagId);
      var rest := WithoutTag(tags[1..], tagId);
      if tags[0].tagId != tagId {
        assert ([tags[0]] + rest)[1..] == rest;
      }
    }
  }

  lemma {:induction false} WithoutTagAppend(tags: seq<Tag>, tag: Tag, tagId: int)
    ensures WithoutTag(tags + [tag], tagId) == WithoutTag(tags, tagId) + WithoutTag([tag], tagId)
  {
    var last := WithoutTag([tag], tagId);
    if tags == [] {
      assert tags + [tag] == [tag];
    } else {
      var xs := tags + [tag];
      assert xs[0] == tags[0] && xs[1..] == tags[1..] + [tag];
      WithoutTagAppend(tags[1..], tag, tagId);
      var front := WithoutTag(tags[1..], tagId);
      assert WithoutTag(xs[1..], tagId) == front + last;
      if tags[0].tagId != tagId {
        assert WithoutTag(xs, tagId) == [tags[0]] + (front + last);
        assert WithoutTag(tags, tagId) == [tags[0]] + front;
        assert [tags[0]] + (front + last) == ([tags[0]] + front) + last;
      }
    }
  }

  /** Removing a tag just added, whose id was not in the list before, gives
      back the list as it was. */
  lemma RemoveUndoesAdd(tags: seq<Tag>, tag: Tag)
    requires forall i :: 0 <= i < |tags| ==> tags[i].tagId != tag.tagId
    ensures WithoutTag(WithTag(tags, tag), tag.tagId) == tags
  {
    WithoutTagAppend(tags, tag, tag.tagId);
    assert WithoutTag([tag], tag.tagId) == [];
  }

  /** The dialog's title and confirm-button label. */
  function Labels(mode: string): (r: (string, string))
    ensures r.0 == "Edit Focus" <==> mode == EditMode
    ensures r.1 == "Update" <==> mode == EditMode
    ensures r == ("Edit Focus", "Update") || r == ("Create Focus", "Create")
  {
    if mode == EditMode then ("Edit Focus", "Update") else ("Create Focus", "Create")
  }

  class FocusDetails {
    const mode: string
    /** The focus mode being edited, if the caller passed one. */
    const focusMode: Option<FocusMode>
    var name: string
    var tags: seq<Tag>

    /** The dialog opens with the given focus mode's name and tags, or with
        an empty name and no tags when none is given. */
    constructor (mode: string, focusMode: Option<FocusMode>)
      ensures this.mode == mode && this.focusMode == focusMode
      ensures focusMode.Some? ==> name == focusMode.value.name && tags == focusMode.value.tags
      ensures focusMode.None? ==> name == "" && tags == []
    {
      this.mode := mode;
      this.focusMode := focusMode;
      name := if focusMode.Some? then focusMode.value.name else "";
      tags := if focusMode.Some? then focusMode.value.tags else [];
    }

    /** The name field's change handler. */
    method ChangeName(newName: string)
      modifies this
      ensures name == newName && tags == old(tags)
    {
      name := newName;
    }

    /** The tag picker's add handler. */
    method AddTag(tag: Tag)
      modifies this
      ensures tags == WithTag(old(tags), tag) && name == old(name)
    {
      tags := WithTag(tags, tag);
    }

    /** The tag picker's remove handler: it removes by id. */
    method RemoveTag(tag: Tag)
      modifies this
      ensures tags == WithoutTag(old(tags), tag.tagId) && name == old(name)
    {
      tags := WithoutTag(tags, tag.tagId);
    }

    /** The payload the confirm button sends: the current name and tags, and,
        in edit mode only, the edited focus mode's id. In edit mode without a
        focus mode reading its id throws and nothing is sent (None). */
    method BuildPayload() returns (r: Option<FocusPayload>)
      ensures r.None? <==> mode == EditMode && focusMode.None?
      ensures r.Some? ==> r.value.name == name && r.value.tags == tags
      ensures r.Some? ==> (r.value.focusId.Some? <==> Labels(mode).1 == "Update")
      ensures r.Some? && mode == EditMode ==> r.value.focusId == Some(focusMode.value.focusId)
    {
      var payload := FocusPayload(name, tags, None);
      if mode == EditMode {
        if focusMode.None? {
          return None;
        }
        payload := payload.(focusId := Some(focusMode.value.focusId));
      }
      r := Some(payload);
    }
  }
}
