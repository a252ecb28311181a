/**
 * The map editor (components/Map.tsx): a click handler whose effect
 * depends on two mode flags, the pending location of a light being
 * added, whether the add-light modal is open, and the `createLight`
 * requests it issues. `Math.random()` draws are parameters in [0, 1).
 */
module LightMap {
  import opened Schema
  import opened Decimal
  import opened AddLightModal

  datatype LatLng = LatLng(lat: real, lng: real)

  /** The arguments of one `createLight` call. */
  datatype CreateRequest = CreateRequest(lat: real, lng: real, labelText: string, zone: string)

  /** `ZONES[Math.floor(draw * ZONES.length)]`: a zone drawn from the menu list. */
  function QuickZone(draw: real): (z: string)
    requires 0.0 <= draw < 1.0
    ensures z in ZoneChoices
  {
    var i := (draw * |ZoneChoices| as real).Floor;
    assert 0 <= i < |ZoneChoices|;
    ZoneChoices[i]
  }

  /** `Math.floor(10000 + draw * 90000)`: a five-digit number. */
  function QuickSuffix(draw: real): (n: nat)
    requires 0.0 <= draw < 1.0
    ensures 10000 <= n <= 99999
  {
    var x := (10000.0 + draw * 90000.0).Floor;
    assert 10000 <= x < 100000;
    x
  }

  /** The label `Quick-${n}`. */
  function QuickLabel(n: nat): string {
    "Quick-" + DecimalString(n)
  }

  /** A quick label is "Quick-" and then exactly five digits, which read back as the number drawn. */
  lemma QuickLabelShape(n: nat)
    requires 10000 <= n <= 99999
    ensures |QuickLabel(n)| == 11
    ensures QuickLabel(n)[..6] == "Quick-"
    ensures IsDigits(QuickLabel(n)[6..]) && DecimalValue(QuickLabel(n)[6..]) == n
  {
    assert Pow10(4) == 10000 && Pow10(5) == 100000;
    DecimalLength(n, 4);
    DecimalRoundTrip(n);
    assert QuickLabel(n)[6..] == DecimalString(n);
  }

  /** The `Map` component's state, with the add-light form it renders. */
  class MapEditor {
    /** The two props, `false` unless the parent passes them; the parent may change them at any time. */
    var isEditorMode: bool
    var isQuickAddMode: bool
    var isModalOpen: bool
    var newLightLocation: Option<LatLng>
    /** Every `createLight` call issued so far, oldest first. */
    var created: seq<CreateRequest>
    const form: AddLightForm

    ghost predicate Valid()
      reads this, form
    {
      form.Valid()
    }

    /** The modal starts closed, with no pending location and an empty form. */
    constructor (isEditorMode: bool, isQuickAddMode: bool)
      ensures Valid()
      ensures this.isEditorMode == isEditorMode && this.isQuickAddMode == isQuickAddMode
      ensures !isModalOpen && newLightLocation.None? && created == []
      ensures fresh(form) && form.labelText == "" && form.zone == ""
    {
      this.isEditorMode := isEditorMode;
      this.isQuickAddMode := isQuickAddMode;
      isModalOpen := false;
      newLightLocation := None;
      created := [];
      form := new AddLightForm();
    }

    /**
     * The parent re-renders the map with new props. The component's own
     * state (the modal, the pending location) survives the change.
     */
    method SetModes(isEditorMode: bool, isQuickAddMode: bool)
      modifies this
      ensures this.isEditorMode == isEditorMode && this.isQuickAddMode == isQuickAddMode
      ensures isModalOpen == old(isModalOpen) && newLightLocation == old(newLightLocation) && created == old(created)
    {
      this.isEditorMode := isEditorMode;
      this.isQuickAddMode := isQuickAddMode;
    }

    /**
     * The map's `click` handler. Outside editor mode it does nothing; in
     * quick-add mode it requests a light at the clicked point with a
     * random zone and label; otherwise it remembers the point and opens
     * the modal.
     */
    method Click(at: LatLng, zoneDraw: real, idDraw: real)
      requires 0.0 <= zoneDraw < 1.0 && 0.0 <= idDraw < 1.0
      modifies this
      ensures isEditorMode == old(isEditorMode) && isQuickAddMode == old(isQuickAddMode)
      ensures !isEditorMode ==> unchanged(this)
      ensures isEditorMode && isQuickAddMode ==>
        && created == old(created) + [CreateRequest(at.lat, at.lng, QuickLabel(QuickSuffix(idDraw)), QuickZone(zoneDraw))]
        && isModalOpen == old(isModalOpen) && newLightLocation == old(newLightLocation)
      ensures isEditorMode && !isQuickAddMode ==>
        && created == old(created)
        && newLightLocation == Some(at) && isModalOpen
    {
      if isEditorMode {
        if isQuickAddMode {
          var randomZone := QuickZone(zoneDraw);
          var randomId := QuickSuffix(idDraw);
          created := created + [CreateRequest(at.lat, at.lng, "Quick-" + DecimalString(randomId), randomZone)];
        } else {
          newLightLocation := Some(LatLng(at.lat, at.lng));
          isModalOpen := true;
        }
      }
    }

    /** The modal's `onClose`: hide it; the pending location stays. */
    method OnClose()
      modifies this
      ensures !isModalOpen
      ensures isEditorMode == old(isEditorMode) && isQuickAddMode == old(isQuickAddMode)
      ensures newLightLocation == old(newLightLocation) && created == old(created)
    {
      isModalOpen := false;
    }

    /** The modal's `onAdd`: request a light at the pending location, if there is one. */
    method OnAdd(data: Submission)
      modifies this
      ensures isEditorMode == old(isEditorMode) && isQuickAddMode == old(isQuickAddMode)
      ensures old(newLightLocation).None? ==> unchanged(this)
      ensures old(newLightLocation).Some? ==>
        && created == old(created) + [CreateRequest(old(newLightLocation).value.lat,
                                                    old(newLightLocation).value.lng,
                                                    data.labelText, data.zone)]
        && isModalOpen == old(isModalOpen) && newLightLocation == old(newLightLocation)
    {
      if newLightLocation.Some? {
        created := created + [CreateRequest(newLightLocation.value.lat, newLightLocation.value.lng, data.labelText, data.zone)];
      }
    }

    /** Typing in the label input, which is only rendered while the modal is open. */
    method TypeLabel(text: string)
      requires Valid() && isModalOpen
      modifies form
      ensures Valid()
      ensures form.labelText == text && form.zone == old(form.zone)
    {
      form.SetLabel(text);
    }

    /** Picking a zone in the menu, which is only rendered while the modal is open. */
    method PickZone(z: string)
      requires Valid() && isModalOpen && z in ZoneChoices
      modifies form
      ensures Valid()
      ensures form.zone == z && form.labelText == old(form.labelText)
    {
      form.SetZone(z);
    }

    /**
     * Submitting the form. The form is only rendered while the modal is
     * open, so a submission can only happen then; it does not look at the
     * mode props. A complete form adds at most one request (none without
     * a pending location), in a zone from the menu list, clears the form
     * and closes the modal; an incomplete one changes nothing.
     */
    method Submit()
      requires Valid() && isModalOpen
      modifies this, form
      ensures Valid()
      ensures CanSubmit(old(form.labelText), old(form.zone)) ==>
        && created == old(created) + (if old(newLightLocation).Some?
                                      then [CreateRequest(old(newLightLocation).value.lat,
                                                          old(newLightLocation).value.lng,
                                                          old(form.labelText), old(form.zone))]
                                      else [])
        && !isModalOpen && newLightLocation == old(newLightLocation)
        && form.labelText == "" && form.zone == ""
      ensures forall k :: |old(created)| <= k < |created| ==> created[k].zone in ZoneChoices
      ensures isEditorMode == old(isEditorMode) && isQuickAddMode == old(isQuickAddMode)
      ensures !CanSubmit(old(form.labelText), old(form.zone)) ==> unchanged(this) && unchanged(form)
    {
      var added, closed := form.HandleSubmit();
      if added.Some? {
        OnAdd(added.value);
      }
      if closed {
        OnClose();
      }
    }
  }
}
