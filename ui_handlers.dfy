/** The option search of `handleReferenceClick` in
    webapp/static/ui-handlers.js, on both of its branches, and the image
    paths the page builds for a reference and a dispenser. A reference
    button picks the option equal to its text, else the first option that
    starts with the text followed by " -" or contains it. */
module UiHandlers {
  import opened Common
  import opened Strings

  /** The partial-match test of lines 102-103 and 137-138. A matching
      option is at least as long as the reference, and an empty reference
      matches every option. */
  predicate PartialMatch(option: string, ref: string)
    ensures PartialMatch(option, ref) ==> |ref| <= |option|
    ensures ref == "" ==> PartialMatch(option, ref)
  {
    assert OccursAt(option, "", 0);
    StartsWith(option, ref + " -") || Contains(option, ref)
  }

  /** The prefix test adds nothing to the containment test. */
  lemma PartialMatchIsContains(option: string, ref: string)
    ensures PartialMatch(option, ref) <==> Contains(option, ref)
  {
    if StartsWith(option, ref + " -") {
      assert option[..|ref|] == (ref + " -")[..|ref|] == ref;
      assert OccursAt(option, ref, 0);
    }
  }

  /** The index of the first option that partially matches `ref`. */
  function FirstPartial(options: seq<string>, ref: string): (r: Option<nat>)
    ensures r.Some? ==> r.value < |options| && PartialMatch(options[r.value], ref)
    ensures r.Some? ==> forall j :: 0 <= j < r.value ==> !PartialMatch(options[j], ref)
    ensures r.None? ==> forall j :: 0 <= j < |options| ==> !PartialMatch(options[j], ref)
  {
    if |options| == 0 then None
    else
      var earlier := FirstPartial(options[..|options| - 1], ref);
      if earlier.Some? then earlier
      else if PartialMatch(options[|options| - 1], ref) then Some(|options| - 1)
      else None
  }

  /** The value the Selectize branch sets, if any. `options[ref]` finds an
      exact key; otherwise the keys are scanned in enumeration order. The
      found value must then be truthy, so an empty one sets
      nothing. */
  function SelectizeChoice(keys: seq<string>, ref: string): (r: Option<string>)
    ensures r.Some? ==> r.value in keys && r.value != ""
    ensures ref in keys && ref != "" ==> r == Some(ref)
  {
    var found :=
      if ref in keys then Some(ref)
      else match FirstPartial(keys, ref)
        case Some(i) => Some(keys[i])
        case None => None;
    if found.Some? && found.value != "" then found else None
  }

  /** The value the native-select branch sets, if any: an equal option,
      else the first partially matching one. */
  function NativeChoice(options: seq<string>, ref: string): (r: Option<string>)
    ensures r.Some? ==> r.value in options && Contains(r.value, ref)
  {
    if ref in options then
      assert OccursAt(ref, ref, 0);
      Some(ref)
    else match FirstPartial(options, ref)
      case Some(i) =>
        PartialMatchIsContains(options[i], ref);
        Some(options[i])
      case None => None
  }

  /** An exact option is preferred over any partial one; otherwise the
      choice is the first option containing the reference; with no match
      nothing is chosen; whatever is chosen is one of the options. */
  lemma NativeChoiceSpec(options: seq<string>, ref: string)
    ensures ref in options ==> NativeChoice(options, ref) == Some(ref)
    ensures ref !in options ==>
              (NativeChoice(options, ref).Some? <==> exists j :: 0 <= j < |options| && Contains(options[j], ref))
    ensures NativeChoice(options, ref).Some? ==> NativeChoice(options, ref).value in options
    ensures ref !in options && NativeChoice(options, ref).Some? ==>
              exists i :: 0 <= i < |options| && options[i] == NativeChoice(options, ref).value
                          && Contains(options[i], ref)
                          && forall j :: 0 <= j < i ==> !Contains(options[j], ref)
  {
    forall j | 0 <= j < |options| {
      PartialMatchIsContains(options[j], ref);
    }
  }

  /** The Selectize branch chooses like the native one, except that it
      never sets an empty value. */
  lemma SelectizeVersusNative(keys: seq<string>, ref: string)
    ensures SelectizeChoice(keys, ref) ==
              (if NativeChoice(keys, ref).Some? && NativeChoice(keys, ref).value != "" then NativeChoice(keys, ref) else None)
    ensures ref != "" && "" !in keys ==> SelectizeChoice(keys, ref) == NativeChoice(keys, ref)
  {
    if ref != "" && "" !in keys && NativeChoice(keys, ref).Some? {
      NativeChoiceSpec(keys, ref);
    }
  }

  /** A select element: its option values in document order and its value. */
  class SelectElement {
    var options: seq<string>
    var value: string

    constructor (options: seq<string>, value: string)
      ensures this.options == options && this.value == value
    {
      this.options := options;
      this.value := value;
    }

    /** The native-select branch (lines 123-150): an exact pass, then a
        partial pass, each stopping at its first hit. Returns whether an
        option was found, which is when the image and the consumption are
        refreshed. */
    method ClickNative(ref: string) returns (found: bool)
      modifies this`value
      ensures found <==> NativeChoice(options, ref).Some?
      ensures found ==> value == NativeChoice(options, ref).value
      ensures !found ==> value == old(value)
    {
      found := ExactPass(ref);
      if !found {
        found := PartialPass(ref);
      }
    }

    /** The first loop of the native branch (lines 126-132): the option
        equal to the reference. */
    method ExactPass(ref: string) returns (found: bool)
      modifies this`value
      ensures found <==> ref in options
      ensures found ==> value == ref
      ensures !found ==> value == old(value)
    {
      found := false;
      var i := 0;
      while i < |options| && !found
        invariant 0 <= i <= |options|
        invariant !found ==> ref !in options[..i] && value == old(value)
        invariant found ==> ref in options && value == ref
        decreases |options| - i, !found
      {
        if options[i] == ref {
          value := ref;
          found := true;
        } else {
          assert options[..i + 1] == options[..i] + [options[i]];
          i := i + 1;
        }
      }
      if !found {
        assert options[..|options|] == options;
      }
    }

    /** The second loop of the native branch (lines 135-144): the first
        option that starts with the reference and " -" or contains it. */
    method PartialPass(ref: string) returns (found: bool)
      modifies this`value
      ensures found <==> FirstPartial(options, ref).Some?
      ensures found ==> value == options[FirstPartial(options, ref).value]
      ensures !found ==> value == old(value)
    {
      found := false;
      var i := 0;
      while i < |options| && !found
        invariant 0 <= i <= |options|
        invariant !found ==> FirstPartial(options[..i], ref).None? && value == old(value)
        invariant found ==> FirstPartial(options, ref) == Some(i) && value == options[i]
        decreases |options| - i, !found
      {
        assert options[..i + 1][..i] == options[..i];
        if PartialMatch(options[i], ref) {
          PrefixFirstPartial(options, i + 1, ref);
          value := options[i];
          found := true;
        } else {
          i := i + 1;
        }
      }
      if !found {
        assert options[..|options|] == options;
      }
    }

    /** The Selectize branch (lines 92-119), given the option keys in the
        order `for…in` enumerates them. */
    method ClickSelectize(keys: seq<string>, ref: string) returns (found: bool)
      modifies this`value
      ensures found <==> SelectizeChoice(keys, ref).Some?
      ensures found ==> value == SelectizeChoice(keys, ref).value
      ensures !found ==> value == old(value)
    {
      var foundValue: Option<string> := None;
      if ref in keys {
        foundValue := Some(ref);
      } else {
        var i := 0;
        while i < |keys| && foundValue.None?
          invariant 0 <= i <= |keys|
          invariant value == old(value)
          invariant foundValue.None? ==> FirstPartial(keys[..i], ref).None?
          invariant foundValue.Some? ==> FirstPartial(keys, ref) == Some(i) && foundValue.value == keys[i]
          decreases |keys| - i, foundValue.None?
        {
          assert keys[..i + 1][..i] == keys[..i];
          if PartialMatch(keys[i], ref) {
            PrefixFirstPartial(keys, i + 1, ref);
            foundValue := Some(keys[i]);
          } else {
            i := i + 1;
          }
        }
        if foundValue.None? {
          assert keys[..|keys|] == keys;
        }
      }
      found := foundValue.Some? && foundValue.value != "";
      if found {
        value := foundValue.value;
      }
    }
  }

  /** A first match found in a prefix is the first match of the whole
      sequence. */
  lemma {:induction false} PrefixFirstPartial(options: seq<string>, n: nat, ref: string)
    requires 0 < n <= |options|
    requires FirstPartial(options[..n], ref) == Some(n - 1)
    ensures FirstPartial(options, ref) == Some(n - 1)
  {
    if n < |options| {
      assert options[..|options| - 1][..n] == options[..n];
      PrefixFirstPartial(options[..|options| - 1], n, ref);
    } else {
      assert options[..n] == options;
    }
  }

  const ImageDirectory: string := "/static/images/"

  /** An image under the images directory: `/static/images/<name><extension>`. */
  function ImagePath(name: string, extension: string): (p: string)
    ensures StartsWith(p, ImageDirectory)
    ensures |p| == |ImageDirectory| + |name| + |extension|
    ensures p[|p| - |extension|..] == extension
  {
    ImageDirectory + name + extension
  }

  /** The reference image of line 30 (and line 200 of webapp/static/api.js). */
  function ReferenceImagePath(ref: string): string {
    ImagePath(ref, ".png")
  }

  /** The dispenser image of line 66. */
  function DispenserImagePath(d: string): string {
    ImagePath(d, ".jpg")
  }

  /** The name inside an image path. */
  function ImageName(p: string): string
    requires |p| >= |ImageDirectory| + 4
  {
    p[|ImageDirectory|..|p| - 4]
  }

  /** The name is recovered from either path, so different references
      have different images, and a reference image is never a dispenser
      image. */
  lemma ImagePathsRoundTrip(ref: string, d: string)
    ensures ImageName(ReferenceImagePath(ref)) == ref
    ensures ImageName(DispenserImagePath(d)) == d
    ensures ReferenceImagePath(ref) != DispenserImagePath(d)
  {
    var p := ReferenceImagePath(ref);
    var q := DispenserImagePath(d);
    assert p[|p| - 4..] == ".png" && q[|q| - 4..] == ".jpg";
  }
}
