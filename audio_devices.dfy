/**
 * Audio device selection: the inputs and outputs the browser reports, the
 * device chosen when permission is granted, and the fallback taken when the
 * chosen device disappears.
 */
module AudioDevices {
  import opened Wrappers

  datatype Device = Device(deviceId: string, kind: string, deviceLabel: string)

  const AudioInput := "audioinput"
  const AudioOutput := "audiooutput"
  const DefaultDeviceId := "default"

  /** `devices.filter(d => d.kind === kind)`. */
  function OfKind(ds: seq<Device>, kind: string): (r: seq<Device>)
    ensures |r| <= |ds|
    ensures forall d :: d in r <==> d in ds && d.kind == kind
  {
    if ds == [] then []
    else (if ds[0].kind == kind then [ds[0]] else []) + OfKind(ds[1..], kind)
  }

  /**
   * The filter keeps the browser's order and every copy: a device listed
   * after the others comes after the others' matches.
   */
  lemma {:induction false} OfKindAppend(ds: seq<Device>, d: Device, kind: string)
    ensures OfKind(ds + [d], kind) == OfKind(ds, kind) + (if d.kind == kind then [d] else [])
    decreases |ds|
  {
    if ds == [] {
      assert ds + [d] == [d];
      assert OfKind([d], kind) == (if d.kind == kind then [d] else []) + OfKind([], kind);
    } else {
      var head := if ds[0].kind == kind then [ds[0]] else [];
      assert (ds + [d])[0] == ds[0] && (ds + [d])[1..] == ds[1..] + [d];
      OfKindAppend(ds[1..], d, kind);
      assert OfKind(ds + [d], kind) == head + OfKind(ds[1..] + [d], kind);
    }
  }

  /** The first device of `kind` the browser lists, as an index (`|ds|` when there is none). */
  function FirstOfKind(ds: seq<Device>, kind: string): (i: nat)
    ensures i <= |ds|
    ensures i < |ds| ==> ds[i].kind == kind
    ensures forall j :: 0 <= j < i ==> ds[j].kind != kind
  {
    if ds == [] then 0
    else if ds[0].kind == kind then 0
    else 1 + FirstOfKind(ds[1..], kind)
  }

  /** The head of the filtered list is the first device of that kind in the browser's list. */
  lemma {:induction false} OfKindFirst(ds: seq<Device>, kind: string)
    ensures OfKind(ds, kind) != [] <==> FirstOfKind(ds, kind) < |ds|
    ensures OfKind(ds, kind) != [] ==> OfKind(ds, kind)[0] == ds[FirstOfKind(ds, kind)]
    decreases |ds|
  {
    if ds != [] && ds[0].kind != kind {
      OfKindFirst(ds[1..], kind);
      assert OfKind(ds, kind) == OfKind(ds[1..], kind);
      if FirstOfKind(ds[1..], kind) < |ds[1..]| {
        assert ds[FirstOfKind(ds, kind)] == ds[1..][FirstOfKind(ds[1..], kind)];
      }
    }
  }

  predicate HasId(ds: seq<Device>, id: string) {
    exists i :: 0 <= i < |ds| && ds[i].deviceId == id
  }

  /** `ds.find(d => d.deviceId === id)`: the first device with that id. */
  function FindById(ds: seq<Device>, id: string): (r: Option<Device>)
    ensures r.Some? <==> HasId(ds, id)
    ensures r.Some? ==> r.value in ds && r.value.deviceId == id
  {
    if ds == [] then None
    else if ds[0].deviceId == id then Some(ds[0])
    else
      var rest := FindById(ds[1..], id);
      assert HasId(ds[1..], id) ==> HasId(ds, id) by {
        if HasId(ds[1..], id) {
          var i :| 0 <= i < |ds[1..]| && ds[1..][i].deviceId == id;
          assert ds[i + 1].deviceId == id;
        }
      }
      assert HasId(ds, id) ==> HasId(ds[1..], id) by {
        if HasId(ds, id) {
          var i :| 0 <= i < |ds| && ds[i].deviceId == id;
          assert i > 0 && ds[1..][i - 1].deviceId == id;
        }
      }
      rest
  }

  /**
   * `ds.find(d => d.deviceId === 'default') || ds[0]`: the 'default' device
   * when there is one, else the first; nothing only when the list is empty.
   */
  function Fallback(ds: seq<Device>): (r: Option<string>)
    ensures r.Some? <==> |ds| > 0
    ensures r.Some? ==> HasId(ds, r.value)
    ensures HasId(ds, DefaultDeviceId) ==> r == Some(DefaultDeviceId)
    ensures !HasId(ds, DefaultDeviceId) && |ds| > 0 ==> r == Some(ds[0].deviceId)
  {
    if FindById(ds, DefaultDeviceId).Some? then Some(DefaultDeviceId)
    else if |ds| > 0 then Some(ds[0].deviceId)
    else None
  }

  /**
   * The selection made after permission is granted: the stored device if it is
   * still present, else the fallback; `None` leaves the selection as it was.
   */
  function InitialChoice(stored: Option<string>, ds: seq<Device>): (r: Option<string>)
    ensures r.None? <==> |ds| == 0
    ensures r.Some? ==> HasId(ds, r.value)
    ensures Truthy(stored) && HasId(ds, stored.value) ==> r == stored
    ensures !(Truthy(stored) && HasId(ds, stored.value)) ==> r == Fallback(ds)
  {
    if Truthy(stored) && HasId(ds, stored.value) then stored else Fallback(ds)
  }

  /**
   * On a device change: when a device is selected but no longer listed, the
   * fallback to switch to; `None` keeps the selection.
   */
  function RefreshChoice(selected: Option<string>, ds: seq<Device>): (r: Option<string>)
    ensures r.Some? <==> Truthy(selected) && !HasId(ds, selected.value) && |ds| > 0
    ensures r.Some? ==> HasId(ds, r.value) && r != selected
    ensures r.Some? ==> r == Fallback(ds)
  {
    if Truthy(selected) && !HasId(ds, selected.value) then Fallback(ds) else None
  }

  /**
   * The selection after a refresh has been applied. The switch goes through
   * `applyAudioDevices`, which ignores an empty id, so a fallback device whose
   * id is empty leaves the vanished selection in place.
   */
  function AfterRefresh(selected: Option<string>, ds: seq<Device>): Option<string> {
    match RefreshChoice(selected, ds)
    case Some(id) => if id != "" then Some(id) else selected
    case None => selected
  }

  /**
   * After a refresh the selection is unset, present in the list, or the list is
   * empty, unless the fallback's id is empty; and a second refresh over the
   * same list then changes nothing.
   */
  lemma RefreshSettles(selected: Option<string>, ds: seq<Device>)
    ensures var s := AfterRefresh(selected, ds);
      !Truthy(s) || HasId(ds, s.value) || ds == [] || Fallback(ds) == Some("")
    ensures Fallback(ds) != Some("") ==> RefreshChoice(AfterRefresh(selected, ds), ds).None?
  {
  }

  /** `getAudioConstraints`: an exact device when one is selected, any microphone otherwise. */
  datatype AudioConstraint = AnyMicrophone | ExactDevice(deviceId: string)

  function AudioConstraints(selected: Option<string>): (c: AudioConstraint)
    ensures c == AnyMicrophone <==> !Truthy(selected)
    ensures c.ExactDevice? ==> Some(c.deviceId) == selected
  {
    if Truthy(selected) then ExactDevice(selected.value) else AnyMicrophone
  }
}
