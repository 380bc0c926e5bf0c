/**
 * The campaign-text extraction in the outbound pipeline's `main()`
 * (outbound_commercial/src/main.py): the crew result is scanned under the keys
 * `tasks`, `results` and `output`, in that order, for the text of the
 * campaign. A task list yields the second task's `output` (else `result`) and,
 * when that is truthy, ends the scan; a plain string is taken but the scan
 * goes on, so a later key can replace it.
 */
module Campaign {
  import opened Wrappers
  import opened JsonValue

  const ResultKeys: seq<string> := ["tasks", "results", "output"]

  /** A list of at least two elements whose second element is a dict. */
  predicate IsTaskList(v: Json) {
    v.JArr? && |v.items| >= 2 && v.items[1].JObj?
  }

  /** `d.get("output") or d.get("result") or None`. */
  function TaskOutput(d: map<string, Json>): (r: Option<Json>)
    ensures r.Some? ==> Truthy(r.value)
    ensures r.None? <==> !("output" in d && Truthy(d["output"])) && !("result" in d && Truthy(d["result"]))
    ensures "output" in d && Truthy(d["output"]) ==> r == Some(d["output"])
    ensures !("output" in d && Truthy(d["output"])) && "result" in d && Truthy(d["result"]) ==> r == Some(d["result"])
  {
    if "output" in d && Truthy(d["output"]) then Some(d["output"])
    else if "result" in d && Truthy(d["result"]) then Some(d["result"])
    else None
  }

  /** The loop body assigns the campaign text when it meets `v`. */
  predicate Assigns(v: Json) {
    IsTaskList(v) || v.JStr?
  }

  /** What the loop body assigns for `v`. */
  function Assigned(v: Json): Option<Json>
    requires Assigns(v)
  {
    if IsTaskList(v) then TaskOutput(v.items[1].fields) else Some(v)
  }

  /** The loop body leaves the loop after meeting `v`: a task list with a truthy text. */
  predicate Stops(v: Json) {
    IsTaskList(v) && TaskOutput(v.items[1].fields).Some?
  }

  /** Key `k` is present in the result and its value stops the scan. */
  predicate KeyStops(d: map<string, Json>, k: string) {
    k in d && Stops(d[k])
  }

  /** Key `k` is present in the result and its value assigns the campaign text. */
  predicate KeyAssigns(d: map<string, Json>, k: string) {
    k in d && Assigns(d[k])
  }

  /** Position of the first key whose value stops the scan. */
  function FirstStop(d: map<string, Json>, keys: seq<string>): (r: Option<nat>)
    ensures r.Some? ==> r.value < |keys| && KeyStops(d, keys[r.value])
    ensures r.Some? ==> forall j :: 0 <= j < r.value ==> !KeyStops(d, keys[j])
    ensures r.None? ==> forall j :: 0 <= j < |keys| ==> !KeyStops(d, keys[j])
  {
    if keys == [] then None
    else if KeyStops(d, keys[0]) then Some(0)
    else match FirstStop(d, keys[1..])
      case Some(k) => Some(k + 1)
      case None => None
  }

  /** Position of the last key whose value assigns the campaign text. */
  function LastAssigning(d: map<string, Json>, keys: seq<string>): (r: Option<nat>)
    ensures r.Some? ==> r.value < |keys| && KeyAssigns(d, keys[r.value])
    ensures r.Some? ==> forall j :: r.value < j < |keys| ==> !KeyAssigns(d, keys[j])
    ensures r.None? ==> forall j :: 0 <= j < |keys| ==> !KeyAssigns(d, keys[j])
  {
    if keys == [] then None
    else if KeyAssigns(d, keys[|keys| - 1]) then Some(|keys| - 1)
    else LastAssigning(d, keys[..|keys| - 1])
  }

  /** The text assigned last among `keys`, or `None` when none of them assigns. */
  function LastAssignedText(d: map<string, Json>, keys: seq<string>): Option<Json> {
    match LastAssigning(d, keys)
    case Some(k) => Assigned(d[keys[k]])
    case None => None
  }

  /**
   * The campaign text, stated without the loop: nothing for a result that is
   * not a dict; otherwise the text of the first key that stops the scan, or,
   * when none does, the text assigned by the last key that assigns one.
   */
  function CampaignText(result: Json): (r: Option<Json>)
    ensures !result.JObj? ==> r == None
    ensures r.Some? ==> r.value.JStr? || Truthy(r.value)
    ensures result.JObj? && FirstStop(result.fields, ResultKeys).Some? ==> r.Some? && Truthy(r.value)
  {
    if !result.JObj? then None
    else
      var d := result.fields;
      match FirstStop(d, ResultKeys)
      case Some(k) => Assigned(d[ResultKeys[k]])
      case None => LastAssignedText(d, ResultKeys)
  }

  /** The extraction loop of `main()`. */
  method ExtractCampaignText(result: Json) returns (campaignText: Option<Json>)
    ensures campaignText == CampaignText(result)
  {
    campaignText := None;
    var i := 0;
    while i < |ResultKeys|
      invariant 0 <= i <= |ResultKeys|
      invariant result.JObj? ==> forall j :: 0 <= j < i ==> !KeyStops(result.fields, ResultKeys[j])
      invariant result.JObj? ==> campaignText == LastAssignedText(result.fields, ResultKeys[..i])
      invariant !result.JObj? ==> campaignText == None
    {
      var key := ResultKeys[i];
      if result.JObj? && key in result.fields {
        var maybe := result.fields[key];
        if IsTaskList(maybe) {
          campaignText := TaskOutput(maybe.items[1].fields);
          if campaignText.Some? {
            assert KeyStops(result.fields, ResultKeys[i]);
            return;
          }
        }
        if maybe.JStr? {
          campaignText := Some(maybe);
        }
      }
      assert ResultKeys[..i + 1][..i] == ResultKeys[..i];
      i := i + 1;
    }
    assert ResultKeys[..i] == ResultKeys;
  }

  /** The result cannot be a dict: the text stays `None`. */
  lemma NonDictGivesNone(result: Json)
    requires !result.JObj?
    ensures CampaignText(result) == None
  {
  }

  /** Two results on which every key stops, assigns and yields alike give the same text. */
  lemma {:induction false} SameVerdictsSameText(d: map<string, Json>, e: map<string, Json>)
    requires forall j :: 0 <= j < |ResultKeys| ==>
      && (KeyStops(d, ResultKeys[j]) <==> KeyStops(e, ResultKeys[j]))
      && (KeyAssigns(d, ResultKeys[j]) <==> KeyAssigns(e, ResultKeys[j]))
      && (KeyAssigns(d, ResultKeys[j]) ==> Assigned(d[ResultKeys[j]]) == Assigned(e[ResultKeys[j]]))
    ensures CampaignText(JObj(d)) == CampaignText(JObj(e))
  {
    var fd, fe := FirstStop(d, ResultKeys), FirstStop(e, ResultKeys);
    assert fd.Some? <==> fe.Some?;
    if fd.Some? {
      assert !(fd.value < fe.value) && !(fe.value < fd.value);
    } else {
      var ld, le := LastAssigning(d, ResultKeys), LastAssigning(e, ResultKeys);
      assert ld.Some? <==> le.Some?;
      if ld.Some? {
        assert !(ld.value < le.value) && !(le.value < ld.value);
      }
    }
  }

  /** Once a key stops the scan, what the later keys hold makes no difference. */
  lemma {:induction false} LaterKeysIgnored(d: map<string, Json>, e: map<string, Json>, i: nat)
    requires i < |ResultKeys|
    requires KeyStops(d, ResultKeys[i])
    requires forall j :: 0 <= j <= i ==>
      && (ResultKeys[j] in d <==> ResultKeys[j] in e)
      && (ResultKeys[j] in d ==> d[ResultKeys[j]] == e[ResultKeys[j]])
    ensures CampaignText(JObj(d)) == CampaignText(JObj(e))
  {
    var fd, fe := FirstStop(d, ResultKeys), FirstStop(e, ResultKeys);
    assert KeyStops(e, ResultKeys[i]);
    assert fd.Some? && fe.Some?;
    assert fd.value <= i && fe.value <= i;
    assert !(fd.value < fe.value) && !(fe.value < fd.value);
  }

  /** A list that is too short, or whose second element is not a dict, is skipped. */
  lemma NonTaskListIgnored(d: map<string, Json>, i: nat)
    requires i < |ResultKeys|
    requires ResultKeys[i] in d && d[ResultKeys[i]].JArr? && !IsTaskList(d[ResultKeys[i]])
    ensures CampaignText(JObj(d)) == CampaignText(JObj(d - {ResultKeys[i]}))
  {
    SameVerdictsSameText(d, d - {ResultKeys[i]});
  }

  /** A string does not stop the scan: a later string replaces it. */
  lemma LaterStringReplacesString(d: map<string, Json>)
    requires "tasks" in d && d["tasks"].JStr?
    requires "output" in d && d["output"].JStr?
    requires !KeyStops(d, "results")
    ensures CampaignText(JObj(d)) == Some(d["output"])
  {
    assert !KeyStops(d, ResultKeys[1]);
    assert KeyAssigns(d, ResultKeys[2]);
  }

  /** A task list without `output` or `result` replaces an earlier string with `None`. */
  lemma EmptyTaskListClearsString(d: map<string, Json>)
    requires "tasks" in d && d["tasks"].JStr?
    requires "results" in d && IsTaskList(d["results"]) && TaskOutput(d["results"].items[1].fields).None?
    requires "output" !in d
    ensures CampaignText(JObj(d)) == None
  {
    assert KeyAssigns(d, ResultKeys[1]);
    assert !KeyAssigns(d, ResultKeys[2]);
  }
}
