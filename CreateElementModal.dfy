/**
 * The "add element" form: three fields the inputs overwrite, a submit guard that
 * agrees with the disabled button and with the store's own guard, the reset that
 * both submit and cancel perform, and the label an icon file is shown under.
 */
module CreateElementModal {
  import opened Wrappers
  import opened Text
  import opened ConstellationLogic

  /** The colour a fresh or reset form shows. */
  const DefaultColor: string := "#3B82F6"

  /** The arguments handed to `addElement` by a successful submit. */
  datatype AddRequest = AddRequest(name: string, icon: string, color: string)

  /** The submit button is disabled while the name trims to nothing or no icon is chosen. */
  predicate SubmitDisabled(name: string, selectedIcon: string) {
    Trim(name) == [] || selectedIcon == []
  }

  class CreateElementForm {
    var name: string
    var selectedIcon: string
    var color: string

    /** The form as it is first shown and as every reset leaves it. */
    predicate IsBlank()
      reads this
    {
      name == [] && selectedIcon == [] && color == DefaultColor
    }

    constructor ()
      ensures IsBlank()
    {
      name := [];
      selectedIcon := [];
      color := DefaultColor;
    }

    /** The name input's `onChange`. */
    method SetName(value: string)
      modifies this`name
      ensures name == value
    {
      name := value;
    }

    /** An icon button's `onClick`, or the icon drop-down's `onChange`. */
    method SelectIcon(icon: string)
      modifies this`selectedIcon
      ensures selectedIcon == icon
    {
      selectedIcon := icon;
    }

    /** The colour input's `onChange`. */
    method SetColor(value: string)
      modifies this`color
      ensures color == value
    {
      color := value;
    }

    /**
     * `handleSubmit`: exactly when the button would be enabled, hand the trimmed name,
     * the icon and the colour to `addElement` and reset the form; otherwise do nothing.
     */
    method HandleSubmit() returns (request: Option<AddRequest>)
      modifies this
      ensures request.Some? <==> !SubmitDisabled(old(name), old(selectedIcon))
      ensures request.Some? ==> request.value == AddRequest(Trim(old(name)), old(selectedIcon), old(color)) && IsBlank()
      ensures request.None? ==> name == old(name) && selectedIcon == old(selectedIcon) && color == old(color)
    {
      if Trim(name) != [] && selectedIcon != [] {
        request := Some(AddRequest(Trim(name), selectedIcon, color));
        name := [];
        selectedIcon := [];
        color := DefaultColor;
      } else {
        request := None;
      }
    }

    /** `handleCancel`: reset the form and ask for the modal to close. */
    method HandleCancel() returns (showModal: bool)
      modifies this
      ensures IsBlank() && !showModal
    {
      name := [];
      selectedIcon := [];
      color := DefaultColor;
      showModal := false;
    }
  }

  /**
   * Whatever the form submits, the store accepts: the trimmed name still trims to
   * something, and trimming it once more changes nothing.
   */
  lemma SubmittedRequestIsAccepted(name: string, selectedIcon: string)
    requires !SubmitDisabled(name, selectedIcon)
    ensures AddAccepted(Trim(name), selectedIcon)
    ensures Trim(Trim(name)) == Trim(name)
  {
    TrimIdempotent(name);
  }

  // ------------------------------------------------------------- icon labels

  /** `s.replace(pat, "")` with a string pattern: only the first occurrence is cut out. */
  function RemoveFirst(s: string, pat: string): (r: string)
    ensures |r| == |s| || |r| == |s| - |pat|
  {
    match IndexOf(s, pat)
    case None => s
    case Some(i) => s[..i] + s[i + |pat|..]
  }

  /** A string without `pat` comes back unchanged. */
  lemma RemoveFirstAbsent(s: string, pat: string)
    requires forall j: nat :: !OccursAt(s, pat, j)
    ensures RemoveFirst(s, pat) == s
  {
  }

  /** With `pat` first occurring at `i`, exactly that occurrence is cut out. */
  lemma RemoveFirstCutsFirstOccurrence(s: string, pat: string, i: nat)
    requires OccursAt(s, pat, i)
    requires forall j: nat | j < i :: !OccursAt(s, pat, j)
    ensures RemoveFirst(s, pat) == s[..i] + s[i + |pat|..]
  {
    var k := IndexOf(s, pat);
    assert k.Some?;
    if k.value < i || i < k.value {
      assert false;
    }
  }

  /** `s.replace(/[-_]/g, " ")`: every dash and underscore becomes a space. */
  function DashesToSpaces(s: string): (r: string)
    ensures |r| == |s|
    ensures forall i | 0 <= i < |s| :: r[i] == (if s[i] == '-' || s[i] == '_' then ' ' else s[i])
  {
    seq(|s|, i requires 0 <= i < |s| => if s[i] == '-' || s[i] == '_' then ' ' else s[i])
  }

  /** Position `i` matches `\b\w`: a word character with no word character before it. */
  predicate WordStart(s: string, i: nat)
    requires i < |s|
  {
    IsWordChar(s[i]) && (i == 0 || !IsWordChar(s[i - 1]))
  }

  /** `s.replace(/\b\w/g, l => l.toUpperCase())`: the first character of every word is upper-cased. */
  function CapitalizeWords(s: string): (r: string)
    ensures |r| == |s|
  {
    seq(|s|, i requires 0 <= i < |s| => if WordStart(s, i) then ToUpper(s[i]) else s[i])
  }

  /** `getIconDisplayName`: drop the first ".png", turn dashes and underscores into spaces, capitalise words. */
  function IconDisplayName(iconFilename: string): (r: string)
    ensures |r| == |iconFilename| || |r| == |iconFilename| - 4
  {
    CapitalizeWords(DashesToSpaces(RemoveFirst(iconFilename, ".png")))
  }

  /** Upper-casing keeps a character's membership in `\w`. */
  lemma ToUpperKeepsWordChar(c: char)
    ensures IsWordChar(ToUpper(c)) <==> IsWordChar(c)
  {
  }

  /** Capitalising changes case only: lower-casing both sides gives the same text. */
  lemma {:induction false} CapitalizeWordsChangesCaseOnly(s: string)
    ensures forall i | 0 <= i < |s| :: ToLower(CapitalizeWords(s)[i]) == ToLower(s[i])
    ensures forall i | 0 <= i < |s| :: CapitalizeWords(s)[i] == s[i] || (IsLower(s[i]) && WordStart(s, i))
  {
  }

  /** Words are delimited in the same places after capitalising, and every word then starts upper-cased. */
  lemma CapitalizedWordsStartUpper(s: string)
    ensures forall i | 0 <= i < |s| :: WordStart(CapitalizeWords(s), i) <==> WordStart(s, i)
    ensures forall i | 0 <= i < |s| && WordStart(CapitalizeWords(s), i) :: !IsLower(CapitalizeWords(s)[i])
  {
    var r := CapitalizeWords(s);
    forall i | 0 <= i < |s| ensures (IsWordChar(r[i]) <==> IsWordChar(s[i])) {
      ToUpperKeepsWordChar(s[i]);
    }
  }

  /** Capitalising twice is capitalising once. */
  lemma CapitalizeWordsIdempotent(s: string)
    ensures CapitalizeWords(CapitalizeWords(s)) == CapitalizeWords(s)
  {
    var r := CapitalizeWords(s);
    CapitalizedWordsStartUpper(s);
    assert forall i | 0 <= i < |r| :: CapitalizeWords(r)[i] == r[i];
  }

  /** A label never shows a dash or an underscore. */
  lemma DisplayNameHasNoSeparators(iconFilename: string)
    ensures forall i | 0 <= i < |IconDisplayName(iconFilename)| ::
      IconDisplayName(iconFilename)[i] != '-' && IconDisplayName(iconFilename)[i] != '_'
  {
    var d := DashesToSpaces(RemoveFirst(iconFilename, ".png"));
    var r := CapitalizeWords(d);
    forall i | 0 <= i < |r| ensures r[i] != '-' && r[i] != '_' {
      assert d[i] != '-' && d[i] != '_';
      if WordStart(d, i) {
        assert IsWordChar(d[i]);
      }
    }
  }

  /** An icon file `<stem>.png` whose stem has no dot is shown as its stem with words separated and capitalised. */
  lemma DisplayNameOfIconFile(stem: string)
    requires '.' !in stem
    ensures IconDisplayName(stem + ".png") == CapitalizeWords(DashesToSpaces(stem))
  {
    var s := stem + ".png";
    assert OccursAt(s, ".png", |stem|) by {
      assert s[|stem|..|stem| + 4] == ".png";
    }
    forall j: nat | j < |stem| ensures !OccursAt(s, ".png", j) {
      assert s[j] == stem[j] && stem[j] != '.';
      if j + 4 <= |s| {
        assert s[j..j + 4][0] == s[j];
      }
    }
    RemoveFirstCutsFirstOccurrence(s, ".png", |stem|);
    assert s[..|stem|] == stem;
    assert s[|stem| + 4..] == [];
    assert RemoveFirst(s, ".png") == stem;
  }

  /** A word of lower-case letters keeps its letters and gains a capital. */
  lemma LowerWordLabel(w: string)
    requires |w| > 0 && forall i | 0 <= i < |w| :: IsLower(w[i])
    ensures '.' !in w
    ensures DashesToSpaces(w) == w
    ensures CapitalizeWords(w) == [ToUpper(w[0])] + w[1..]
  {
    var d := DashesToSpaces(w);
    forall i | 0 <= i < |w| ensures d[i] == w[i] && w[i] != '.' {
      assert IsLower(w[i]);
    }
    var r := CapitalizeWords(w);
    var e := [ToUpper(w[0])] + w[1..];
    assert r[0] == e[0] by {
      assert WordStart(w, 0);
    }
    forall i | 0 < i < |w| ensures r[i] == e[i] {
      assert IsLower(w[i - 1]);
      assert !WordStart(w, i);
    }
  }

  /** The label of the first bundled icon. */
  lemma WizardLabel()
    ensures IconDisplayName("wizard.png") == "Wizard"
  {
    var stem := "wizard";
    assert forall i | 0 <= i < |stem| :: IsLower(stem[i]);
    LowerWordLabel(stem);
    assert stem + ".png" == "wizard.png";
    DisplayNameOfIconFile(stem);
    assert [ToUpper(stem[0])] + stem[1..] == "Wizard";
  }
}
