/**
 * The "Dataset Ingestion" button: a re-entrancy guard, a loading overlay,
 * and the classification of the ingestion result into one of three dialogs.
 * The request is split at its await: Click starts a run, Complete receives
 * how it ended.
 */
module Ingest {
  import opened Wrappers
  import opened JsonValues
  import opened Text
  import opened Numbers

  const FailedTitle := "Ingestion failed"
  const CompletedTitle := "Ingestion completed"
  const UnexpectedTitle := "Unexpected error"
  const TimeoutText := "Timeout waiting for server response."
  const UnknownFailure := "Unknown failure"

  /** How the request to /api/ingest ended. */
  datatype Reply =
    | Threw(name: string, message: string)      // fetch or res.json() threw
    | Responded(ok: bool, status: nat, json: Json)

  datatype Modal =
    | ErrorModal(title: string, text: Json)
    | SuccessModal(title: string, rowsLoaded: Json)

  /** What the user sees, in order. */
  datatype Screen = OverlayShown | OverlayRemoved | ModalShown(modal: Modal)

  /** A response is a failure when it is not ok or its JSON carries a truthy `error`. */
  predicate IsFailure(ok: bool, json: Json)
    ensures !ok ==> IsFailure(ok, json)
    ensures ok ==> (IsFailure(ok, json) <==> Truthy(Get(json, "error")))
  {
    !ok || Truthy(Get(json, "error"))
  }

  /** `json?.error || \`HTTP ${status}\``. */
  function FailureText(status: nat, json: Json): (t: Json)
    ensures Truthy(Get(json, "error")) ==> t == Get(json, "error").value
    ensures !Truthy(Get(json, "error")) ==> t == JStr("HTTP " + DecimalString(status))
  {
    if Truthy(Get(json, "error")) then Get(json, "error").value else JStr("HTTP " + DecimalString(status))
  }

  /** The first candidate that is neither undefined nor null, else `fallback`: a chain of `??`. */
  function FirstNonNullish(candidates: seq<Option<Json>>, fallback: Json): (r: Json)
    ensures (forall k :: 0 <= k < |candidates| ==> Nullish(candidates[k])) ==> r == fallback
    ensures forall k :: (0 <= k < |candidates| && !Nullish(candidates[k]) &&
                         forall j :: 0 <= j < k ==> Nullish(candidates[j])) ==> r == candidates[k].value
  {
    if candidates == [] then fallback
    else if !Nullish(candidates[0]) then candidates[0].value
    else
      var r := FirstNonNullish(candidates[1..], fallback);
      assert forall k :: 1 <= k < |candidates| ==> candidates[k] == candidates[1..][k - 1];
      r
  }

  /** `json?.data ?? {}`. */
  function DataOf(json: Json): (d: Json)
    ensures Nullish(Get(json, "data")) ==> d == JObj(map[])
    ensures !Nullish(Get(json, "data")) ==> Some(d) == Get(json, "data")
  {
    if Nullish(Get(json, "data")) then JObj(map[]) else Get(json, "data").value
  }

  /** `d.metrics?.rows_loaded`: undefined when `metrics` is undefined or null. */
  function MetricsRowsLoaded(d: Json): Option<Json>
  {
    var metrics := Get(d, "metrics");
    if Nullish(metrics) then None else Get(metrics.value, "rows_loaded")
  }

  /**
   * `d.rows_loaded ?? d.loaded ?? d.metrics?.rows_loaded ?? '—'` with `d`
   * the response's data: the first of the three that is neither undefined
   * nor null, else a dash.
   */
  function RowsLoaded(json: Json): (r: Json)
    ensures var d := DataOf(json);
      (!Nullish(Get(d, "rows_loaded")) ==> r == Get(d, "rows_loaded").value) &&
      (Nullish(Get(d, "rows_loaded")) && !Nullish(Get(d, "loaded")) ==> r == Get(d, "loaded").value) &&
      (Nullish(Get(d, "rows_loaded")) && Nullish(Get(d, "loaded")) && !Nullish(MetricsRowsLoaded(d)) ==>
         r == MetricsRowsLoaded(d).value) &&
      (Nullish(Get(d, "rows_loaded")) && Nullish(Get(d, "loaded")) && Nullish(MetricsRowsLoaded(d)) ==>
         r == JStr(Dash))
  {
    var d := DataOf(json);
    var cs := [Get(d, "rows_loaded"), Get(d, "loaded"), MetricsRowsLoaded(d)];
    assert cs[0] == Get(d, "rows_loaded") && cs[1] == Get(d, "loaded") && cs[2] == MetricsRowsLoaded(d);
    FirstNonNullish(cs, JStr(Dash))
  }

  /** A count of zero is reported as zero: `??` only skips undefined and null. */
  lemma RowsLoadedKeepsZero(json: Json)
    requires Get(DataOf(json), "rows_loaded") == Some(JNum(0.0))
    ensures RowsLoaded(json) == JNum(0.0)
  {
  }

  /** A null `rows_loaded` falls through to `loaded`. */
  lemma RowsLoadedSkipsNull(json: Json, v: Json)
    requires Get(DataOf(json), "rows_loaded") == Some(JNull)
    requires Get(DataOf(json), "loaded") == Some(v) && v != JNull
    ensures RowsLoaded(json) == v
  {
  }

  /** Without data every candidate is undefined and a dash is shown. */
  lemma RowsLoadedWithoutData(json: Json)
    requires Nullish(Get(json, "data"))
    ensures RowsLoaded(json) == JStr(Dash)
  {
    var cs := [Get(JObj(map[]), "rows_loaded"), Get(JObj(map[]), "loaded"), None];
    assert forall k :: 0 <= k < |cs| ==> Nullish(cs[k]);
  }

  /** The text for an exception: a timeout for an AbortError, else its message, else a generic text. */
  function ThrownText(name: string, message: string): (t: string)
    ensures t != ""
    ensures name == "AbortError" ==> t == TimeoutText
    ensures name != "AbortError" && message != "" ==> t == message
    ensures name != "AbortError" && message == "" ==> t == UnknownFailure
  {
    if name == "AbortError" then TimeoutText else if message != "" then message else UnknownFailure
  }

  /** The dialog shown when a run ends: success exactly for an ok response without a truthy `error`. */
  function ResultModal(reply: Reply): (m: Modal)
    ensures m.SuccessModal? <==> reply.Responded? && !IsFailure(reply.ok, reply.json)
    ensures m.SuccessModal? ==> m == SuccessModal(CompletedTitle, RowsLoaded(reply.json))
    ensures reply.Responded? && IsFailure(reply.ok, reply.json) ==>
              m == ErrorModal(FailedTitle, FailureText(reply.status, reply.json))
    ensures reply.Threw? ==> m == ErrorModal(UnexpectedTitle, JStr(ThrownText(reply.name, reply.message)))
  {
    match reply
    case Threw(name, message) => ErrorModal(UnexpectedTitle, JStr(ThrownText(name, message)))
    case Responded(ok, status, json) =>
      if IsFailure(ok, json) then ErrorModal(FailedTitle, FailureText(status, json))
      else SuccessModal(CompletedTitle, RowsLoaded(json))
  }

  /** Whether the overlay is on screen after the events in `screen`. */
  function OverlayVisible(screen: seq<Screen>): bool
  {
    if screen == [] then false
    else match screen[|screen| - 1]
      case OverlayShown => true
      case OverlayRemoved => false
      case ModalShown(_) => OverlayVisible(screen[..|screen| - 1])
  }

  /** No dialog ever opens while the overlay is up. */
  ghost predicate ModalsClearOfOverlay(screen: seq<Screen>)
  {
    forall i :: 0 <= i < |screen| && screen[i].ModalShown? ==> !OverlayVisible(screen[..i])
  }

  class IngestButton {
    var loading: bool
    var overlay: bool
    var screen: seq<Screen>

    ghost predicate Valid()
      reads this
    {
      overlay == loading && OverlayVisible(screen) == overlay && ModalsClearOfOverlay(screen)
    }

    constructor ()
      ensures Valid() && !loading && screen == []
    {
      loading := false;
      overlay := false;
      screen := [];
    }

    /** A click: ignored while a run is loading; otherwise loading starts and the overlay appears. */
    method Click() returns (started: bool)
      requires Valid()
      modifies this
      ensures Valid()
      ensures started == !old(loading)
      ensures !started ==> loading == old(loading) && overlay == old(overlay) && screen == old(screen)
      ensures started ==> loading && screen == old(screen) + [OverlayShown]
    {
      if loading {
        return false;
      }
      loading := true;
      overlay := true;
      ghost var before := screen;
      screen := screen + [OverlayShown];
      forall i | 0 <= i < |screen| && screen[i].ModalShown?
        ensures !OverlayVisible(screen[..i])
      {
        assert screen[..i] == before[..i];
      }
      started := true;
    }

    /** The run ends: the overlay goes first, loading stops, then the result dialog opens. */
    method Complete(reply: Reply)
      requires Valid() && loading
      modifies this
      ensures Valid()
      ensures !loading
      ensures screen == old(screen) + [OverlayRemoved, ModalShown(ResultModal(reply))]
    {
      ghost var before := screen;
      screen := screen + [OverlayRemoved];
      overlay := false;
      loading := false;
      screen := screen + [ModalShown(ResultModal(reply))];
      assert screen[..|before| + 1] == before + [OverlayRemoved];
      forall i | 0 <= i < |screen| && screen[i].ModalShown?
        ensures !OverlayVisible(screen[..i])
      {
        if i < |before| {
          assert screen[..i] == before[..i];
        }
      }
      assert screen[..|screen| - 1] == before + [OverlayRemoved];
    }
  }

  /** A second click while a run is in flight does nothing; the run ends with one dialog. */
  method DoubleClick(reply: Reply) returns (second: bool, screen: seq<Screen>)
    ensures !second
    ensures screen == [OverlayShown, OverlayRemoved, ModalShown(ResultModal(reply))]
  {
    var b := new IngestButton();
    var first := b.Click();
    second := b.Click();
    b.Complete(reply);
    screen := b.screen;
  }
}
