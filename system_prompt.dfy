/**
 * The system-prompt dialog: a text area limited to 2000 characters, a dirty
 * flag, a save button and the effect that resets the draft whenever the
 * dialog is (re)opened or the saved prompt changes while it is open.
 *
 * `isOpen` and `currentPrompt` are the dialog's properties, owned by its
 * parent; the calls of `onSave` and `onClose` are what `HandleSave`
 * returns.
 */
module SystemPrompt {
  import opened Common

  const MaxPromptLength := 2000

  /** `s.length` in JavaScript: UTF-16 code units, two for a character outside
      the Basic Multilingual Plane. */
  function Utf16Length(s: string): (r: nat)
    ensures |s| <= r <= 2 * |s|
  {
    if s == [] then 0
    else Utf16Length(s[..|s| - 1]) + (if s[|s| - 1] as int > 0xFFFF then 2 else 1)
  }

  /** An edit fits when its JavaScript length is at most the limit. */
  predicate Fits(s: string)
    ensures Fits(s) ==> |s| <= MaxPromptLength
    ensures 2 * |s| <= MaxPromptLength ==> Fits(s)
  {
    Utf16Length(s) <= MaxPromptLength
  }

  class PromptEditor {
    var isOpen: bool
    var currentPrompt: string
    var prompt: string
    var isDirty: bool

    /** Whatever the user has typed into the draft is within the limit. */
    ghost predicate Valid()
      reads this
    {
      isDirty ==> Fits(prompt)
    }

    /** The first render: the draft starts as the saved prompt, clean. */
    constructor (open: bool, current: string)
      ensures Valid()
      ensures isOpen == open && currentPrompt == current && prompt == current && !isDirty
    {
      isOpen := open;
      currentPrompt := current;
      prompt := current;
      isDirty := false;
    }

    /** The parent re-renders with new properties; the effect runs when one
        of them changed and resets the draft if the dialog is open. */
    method SetProps(open: bool, current: string)
      requires Valid()
      modifies this
      ensures Valid()
      ensures isOpen == open && currentPrompt == current
      ensures open && (open != old(isOpen) || current != old(currentPrompt)) ==>
        prompt == current && !isDirty
      ensures !(open && (open != old(isOpen) || current != old(currentPrompt))) ==>
        prompt == old(prompt) && isDirty == old(isDirty)
    {
      var changed := open != isOpen || current != currentPrompt;
      isOpen := open;
      currentPrompt := current;
      if changed && open {
        prompt := current;
        isDirty := false;
      }
    }

    /** `handlePromptChange`: take the new text if it fits, and mark the draft
        dirty; otherwise ignore it. */
    method HandlePromptChange(newPrompt: string) returns (accepted: bool)
      requires Valid()
      modifies this`prompt, this`isDirty
      ensures Valid()
      ensures accepted <==> Fits(newPrompt)
      ensures accepted ==> prompt == newPrompt && isDirty
      ensures !accepted ==> prompt == old(prompt) && isDirty == old(isDirty)
    {
      accepted := Utf16Length(newPrompt) <= MaxPromptLength;
      if accepted {
        prompt := newPrompt;
        isDirty := true;
      }
    }

    /** The save button is enabled. */
    predicate SaveEnabled()
      reads this
      ensures SaveEnabled() <==> isDirty && !IsBlank(prompt)
    {
      TrimEmptyIffBlank(prompt);
      Trim(prompt) != [] && isDirty
    }

    /** `handleSave`: a draft with text in it is handed to `onSave` trimmed,
        and `onClose` is called; a blank draft does neither. The dialog's own
        state is untouched; closing is up to the parent, which passes the new
        `isOpen` back through `SetProps`. */
    method HandleSave() returns (saved: Option<string>, closeRequested: bool)
      requires Valid()
      ensures saved.Some? <==> !IsBlank(prompt)
      ensures closeRequested <==> saved.Some?
      ensures saved.Some? ==> saved.value == Trim(prompt) && Trim(saved.value) == saved.value
      ensures saved.Some? ==> Utf16Length(saved.value) <= Utf16Length(prompt)
    {
      TrimEmptyIffBlank(prompt);
      var trimmed := Trim(prompt);
      if trimmed != [] {
        TrimIsIdempotent(prompt);
        TrimmedIsShorter(prompt);
        saved := Some(trimmed);
        closeRequested := true;
      } else {
        saved := None;
        closeRequested := false;
      }
    }
  }

  /** The JavaScript length of a concatenation is the sum of the lengths. */
  lemma {:induction false} Utf16LengthAppend(a: string, b: string)
    ensures Utf16Length(a + b) == Utf16Length(a) + Utf16Length(b)
  {
    if b == [] {
      assert a + b == a;
    } else {
      var init := b[..|b| - 1];
      assert (a + b)[..|a + b| - 1] == a + init;
      assert (a + b)[|a + b| - 1] == b[|b| - 1];
      Utf16LengthAppend(a, init);
    }
  }

  /** Neither part of a string cut in two is longer than the whole. */
  lemma {:induction false} SlicesAreShorter(s: string, k: int)
    requires 0 <= k <= |s|
    ensures Utf16Length(s[..k]) <= Utf16Length(s) && Utf16Length(s[k..]) <= Utf16Length(s)
  {
    assert s == s[..k] + s[k..];
    Utf16LengthAppend(s[..k], s[k..]);
  }

  /** Trimming never lengthens a prompt, so a saved prompt fits whenever the
      draft did. */
  lemma {:induction false} TrimmedIsShorter(s: string)
    ensures Utf16Length(Trim(s)) <= Utf16Length(s)
  {
    var u := TrimStart(s);
    SlicesAreShorter(s, |s| - |u|);
    SlicesAreShorter(u, |TrimEnd(u)|);
  }
}
