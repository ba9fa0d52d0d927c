/**
 * The tag list shared by the two CozyUploadPost forms
 * (app/communities/components/ui/image-post/CozyUploadPost.tsx and
 * components/CozyUploadPost.tsx): `[...tags, t]` guarded by
 * `tags.includes(t)`, the Enter-key handler around it, and
 * `tags.filter(tag => tag !== tagToRemove)`.
 */
module TagList {
  import opened JsText

  /** An ordered set of tags: each tag non-empty and trimmed, no tag twice. */
  predicate IsTagSet(tags: seq<string>)
  {
    (forall i :: 0 <= i < |tags| ==> tags[i] != "" && IsTrimmed(tags[i])) && Distinct(tags)
  }

  /** No tag occurs twice. */
  predicate Distinct(tags: seq<string>)
  {
    forall i, j :: 0 <= i < j < |tags| ==> tags[i] != tags[j]
  }

  /** The list after offering `tag`: appended at the end unless already present. */
  function WithTag(tags: seq<string>, tag: string): seq<string>
  {
    if tag in tags then tags else tags + [tag]
  }

  /** `tags.filter(t => t !== tag)`: every tag except `tag`, in order. */
  function RemoveTag(tags: seq<string>, tag: string): (r: seq<string>)
    ensures forall t :: t in r <==> t in tags && t != tag
    ensures |r| <= |tags|
  {
    if tags == [] then []
    else (if tags[0] == tag then [] else [tags[0]]) + RemoveTag(tags[1..], tag)
  }

  /** The tag list and the text field after a key press in the tag input. */
  datatype TagInput = TagInput(tags: seq<string>, inputTag: string)

  /**
   * `handleAddTag`: on Enter with some non-blank text, offer the trimmed
   * text as a tag and clear the field; any other key, or Enter on blank
   * text, changes nothing.
   */
  function OnKeyDown(key: string, state: TagInput): TagInput
  {
    if key == "Enter" && Trim(state.inputTag) != "" then
      TagInput(WithTag(state.tags, Trim(state.inputTag)), "")
    else state
  }

  /** Offering a tag keeps every tag in place and adds it at most once, at the end. */
  lemma WithTagContents(tags: seq<string>, tag: string)
    ensures var r := WithTag(tags, tag);
      && r[..|tags|] == tags
      && (forall t :: t in r <==> t in tags || t == tag)
      && |r| == if tag in tags then |tags| else |tags| + 1
  {
    var r := WithTag(tags, tag);
    assert r[..|tags|] == tags;
  }

  /** Offering a non-empty trimmed tag keeps the list an ordered set. */
  lemma WithTagKeepsTagSet(tags: seq<string>, tag: string)
    requires IsTagSet(tags) && tag != "" && IsTrimmed(tag)
    ensures IsTagSet(WithTag(tags, tag))
  {
    if tag !in tags {
      var r := tags + [tag];
      forall i, j | 0 <= i < j < |r|
        ensures r[i] != r[j]
      {
        if j == |tags| {
          assert r[i] == tags[i];
        }
      }
    }
  }

  /** A key press in the tag input keeps the list an ordered set. */
  lemma OnKeyDownKeepsTagSet(key: string, state: TagInput)
    requires IsTagSet(state.tags)
    ensures IsTagSet(OnKeyDown(key, state).tags)
  {
    if key == "Enter" && Trim(state.inputTag) != "" {
      TrimIsTrimmed(state.inputTag);
      WithTagKeepsTagSet(state.tags, Trim(state.inputTag));
    }
  }

  /**
   * What a key press does, in the handler's own terms: it acts exactly on
   * Enter with non-blank text. Then the field is cleared and the trimmed
   * text is appended exactly when it is new; otherwise nothing changes.
   */
  lemma OnKeyDownEffect(key: string, state: TagInput)
    ensures var after := OnKeyDown(key, state);
      var t := Trim(state.inputTag);
      && (key != "Enter" || TrimEmptyText(state.inputTag) ==> after == state)
      && (key == "Enter" && !TrimEmptyText(state.inputTag) ==>
            && after.inputTag == ""
            && (t in state.tags ==> after.tags == state.tags)
            && (t !in state.tags ==> after.tags == state.tags + [t]))
  {
    TrimEmpty(state.inputTag);
  }

  /** The field holds only whitespace, so `inputTag.trim()` is falsy. */
  predicate TrimEmptyText(s: string)
  {
    forall i :: 0 <= i < |s| ==> IsWhitespace(s[i])
  }

  /** Filtering distributes over concatenation, so the kept tags stay in order. */
  lemma {:induction false} RemoveTagAppend(a: seq<string>, b: seq<string>, tag: string)
    ensures RemoveTag(a + b, tag) == RemoveTag(a, tag) + RemoveTag(b, tag)
  {
    if a == [] {
      assert a + b == b;
    } else {
      assert (a + b)[1..] == a[1..] + b;
      RemoveTagAppend(a[1..], b, tag);
    }
  }

  /** Removing a tag that is not there leaves the list as it is. */
  lemma {:induction false} RemoveTagAbsent(tags: seq<string>, tag: string)
    requires tag !in tags
    ensures RemoveTag(tags, tag) == tags
  {
    if tags != [] {
      RemoveTagAbsent(tags[1..], tag);
      assert [tags[0]] + tags[1..] == tags;
    }
  }

  /** Removing a tag that occurs once deletes that occurrence. */
  lemma {:induction false} RemoveSingle(pre: seq<string>, tag: string, suf: seq<string>)
    requires tag !in pre && tag !in suf
    ensures RemoveTag(pre + [tag] + suf, tag) == pre + suf
  {
    assert RemoveTag([tag], tag) == RemoveTag([], tag) == [] by {
      assert [tag][1..] == [];
    }
    RemoveTagAppend(pre, [tag], tag);
    RemoveTagAbsent(pre, tag);
    assert RemoveTag(pre + [tag], tag) == pre;
    RemoveTagAppend(pre + [tag], suf, tag);
    RemoveTagAbsent(suf, tag);
  }

  /** In an ordered set, removing a tag deletes its one position. */
  lemma RemoveTagAt(tags: seq<string>, k: int)
    requires Distinct(tags) && 0 <= k < |tags|
    ensures RemoveTag(tags, tags[k]) == tags[..k] + tags[k + 1..]
  {
    var pre, tag, suf := tags[..k], tags[k], tags[k + 1..];
    assert tags == pre + [tag] + suf;
    assert tag !in pre by {
      forall i | 0 <= i < |pre| ensures pre[i] != tag {
        assert pre[i] == tags[i];
      }
    }
    assert tag !in suf by {
      forall i | 0 <= i < |suf| ensures suf[i] != tag {
        assert suf[i] == tags[k + 1 + i];
      }
    }
    RemoveSingle(pre, tag, suf);
  }

  /** Removing a tag keeps the list an ordered set. */
  lemma RemoveTagKeepsTagSet(tags: seq<string>, tag: string)
    requires IsTagSet(tags)
    ensures IsTagSet(RemoveTag(tags, tag))
  {
    if tag in tags {
      var k :| 0 <= k < |tags| && tags[k] == tag;
      RemoveTagAt(tags, k);
      var r := tags[..k] + tags[k + 1..];
      assert forall i :: 0 <= i < |r| ==> r[i] == if i < k then tags[i] else tags[i + 1];
    } else {
      RemoveTagAbsent(tags, tag);
    }
  }
}
