/**
 * The "add light" form (components/AddLightModal.tsx): two pieces of
 * component state, `label` and `zone`, set by the inputs, and a submit
 * handler that passes them on only when both are filled in. The
 * component keeps its state while closed; closing only hides it.
 */
module AddLightModal {
  import opened Schema

  /** `ZONES`: the zones a new light can be placed in, in menu order. */
  const ZoneChoices: seq<string> :=
    ["Runway 12-30", "Runway 08-26", "Taxiway Alpha", "Taxiway Bravo", "Apron A", "Apron B"]

  /** The six menu entries are distinct and none is the empty placeholder value. */
  lemma ZoneChoicesWellFormed()
    ensures |ZoneChoices| == 6
    ensures forall i, j :: 0 <= i < j < |ZoneChoices| ==> ZoneChoices[i] != ZoneChoices[j]
    ensures "" !in ZoneChoices
  {
  }

  /** The `{ label, zone }` object handed to `onAdd`. */
  datatype Submission = Submission(labelText: string, zone: string)

  /** The guard of `handleSubmit`: both strings are truthy, that is, non-empty. */
  predicate CanSubmit(labelText: string, zone: string) {
    labelText != "" && zone != ""
  }

  /** The submit button's `disabled={!label || !zone}`. */
  predicate SubmitDisabled(labelText: string, zone: string) {
    labelText == "" || zone == ""
  }

  /** The button is enabled exactly when a click would get past the handler's guard. */
  lemma SubmitEnabledIffGuard(labelText: string, zone: string)
    ensures !SubmitDisabled(labelText, zone) <==> CanSubmit(labelText, zone)
  {
  }

  /**
   * The component's state: the text in the label input and the zone picked
   * in the menu. The component renders nothing while the modal is closed,
   * so its inputs can only be used while it is open; `LightMap.MapEditor`
   * enforces that in `TypeLabel`, `PickZone` and `Submit`.
   */
  class AddLightForm {
    var labelText: string
    var zone: string

    /** The menu only offers the placeholder (empty) or one of `ZONES`. */
    ghost predicate Valid()
      reads this
    {
      zone == "" || zone in ZoneChoices
    }

    /** `useState("")` twice: both fields start empty. */
    constructor ()
      ensures Valid()
      ensures labelText == "" && zone == ""
    {
      labelText := "";
      zone := "";
    }

    /** The label input's `onChange`. */
    method SetLabel(text: string)
      requires Valid()
      modifies this
      ensures Valid()
      ensures labelText == text && zone == old(zone)
    {
      labelText := text;
    }

    /** The zone menu's `onChange`: only a listed zone can be picked. */
    method SetZone(z: string)
      requires Valid() && z in ZoneChoices
      modifies this
      ensures Valid()
      ensures zone == z && labelText == old(labelText)
    {
      zone := z;
    }

    /**
     * `handleSubmit`: with both fields filled in, hand them to `onAdd`,
     * clear both and ask to close; otherwise do nothing at all.
     */
    method HandleSubmit() returns (added: Option<Submission>, closed: bool)
      requires Valid()
      modifies this
      ensures Valid()
      ensures added.Some? <==> CanSubmit(old(labelText), old(zone))
      ensures added.Some? ==>
        && added.value == Submission(old(labelText), old(zone))
        && labelText == "" && zone == ""
        && closed
      ensures added.Some? ==> added.value.zone in ZoneChoices
      ensures added.None? ==> !closed && unchanged(this)
    {
      if labelText != "" && zone != "" {
        added := Some(Submission(labelText, zone));
        labelText := "";
        zone := "";
        closed := true;
      } else {
        added := None;
        closed := false;
      }
    }
  }
}
