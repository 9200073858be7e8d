/** The guard against a tool failing the same way again and again within one run. */
module FailureTracker {
  import opened Wrappers
  import opened Text
  import opened ToolResults
  import opened Transcript

  // ----- Results -----

  /** Why a result counts as a failure; empty when it does not. */
  function FailureText(r: ToolResult): string {
    if TrimSpace(r.error) != "" then TrimSpace(r.error)
    else if r.payload.Decoded? && r.payload.fields.success == Some(false) then
      if TrimSpace(r.payload.fields.error) != "" then TrimSpace(r.payload.fields.error)
      else if TrimSpace(r.content) != "" then TrimSpace(r.content)
      else if TrimSpace(r.payload.fields.status) != "" then TrimSpace(r.payload.fields.status)
      else "tool reported failure"
    else ""
  }

  predicate Succeeded(r: ToolResult) {
    r.error == "" && r.payload.Decoded? && r.payload.fields.success == Some(true)
  }

  lemma {:induction false} SuccessIsNoFailure(r: ToolResult)
    requires Succeeded(r)
    ensures FailureText(r) == ""
  {
    assert TrimLeft("") == "" && TrimRight("") == "";
  }

  /** What makes two failures the same; `identity` stands for the fingerprint of arguments or command output. */
  datatype Key = Key(name: string, status: string, failure: string, identity: string)

  function FailureKey(call: ToolCall, r: ToolResult, identity: (ToolCall, ToolResult) -> string): Option<Key> {
    if FailureText(r) == "" then None
    else
      Some(Key(if TrimSpace(r.name) == "" then call.name else r.name, FieldsOf(r.payload).status, FailureText(r),
               identity(call, r)))
  }

  // ----- The longest block of the same failure at the end -----

  function TrailingBlock(keys: seq<Option<Key>>): nat {
    if keys == [] || keys[|keys| - 1].None? then 0
    else if |keys| > 1 && keys[|keys| - 2] == keys[|keys| - 1] then 1 + TrailingBlock(keys[..|keys| - 1])
    else 1
  }

  /** The count is the length of the maximal block of one failure key that ends the list; 0 after a success. */
  lemma {:induction false} TrailingBlockIsMaximal(keys: seq<Option<Key>>)
    ensures
      var n := TrailingBlock(keys);
      && n <= |keys|
      && (n == 0 <==> keys == [] || keys[|keys| - 1].None?)
      && (forall i :: |keys| - n <= i < |keys| ==> keys[i].Some? && keys[i] == keys[|keys| - 1])
      && (0 < n < |keys| ==> keys[|keys| - n - 1] != keys[|keys| - 1])
  {
    if TrailingBlock(keys) > 1 {
      TrailingBlockIsMaximal(keys[..|keys| - 1]);
    }
  }

  lemma {:induction false} BlockAfter(keys: seq<Option<Key>>, key: Option<Key>)
    ensures
      TrailingBlock(keys + [key]) ==
      if key.None? then 0 else if keys != [] && keys[|keys| - 1] == key then TrailingBlock(keys) + 1 else 1
  {
    assert (keys + [key])[..|keys|] == keys;
  }

  /** The failures so far have not tripped the guard. */
  ghost predicate NeverThrice(keys: seq<Option<Key>>) {
    forall n :: 0 <= n < |keys| ==> TrailingBlock(keys[..n]) < 3
  }

  lemma {:induction false} NeverThriceAfter(keys: seq<Option<Key>>, key: Option<Key>)
    requires NeverThrice(keys) && TrailingBlock(keys) < 3
    ensures NeverThrice(keys + [key])
  {
    hide TrailingBlock;
    var more := keys + [key];
    forall n | 0 <= n < |more| ensures TrailingBlock(more[..n]) < 3 {
      assert more[..n] == if n < |keys| then keys[..n] else keys;
    }
  }

  datatype Repeated = Repeated(count: nat, status: string, error: string)

  class Tracker {
    var lastKey: Option<Key>
    var last: Repeated
    ghost var recorded: seq<Option<Key>>

    ghost predicate Valid()
      reads this
    {
      && last.count == TrailingBlock(recorded)
      && lastKey == if recorded == [] then None else recorded[|recorded| - 1]
    }

    constructor ()
      ensures Valid() && recorded == []
    {
      lastKey, last, recorded := None, Repeated(0, "", ""), [];
    }

    method Reset()
      modifies this`lastKey, this`last
      ensures lastKey == None && last == Repeated(0, "", "")
    {
      lastKey, last := None, Repeated(0, "", "");
    }

    method Record(call: ToolCall, r: ToolResult, identity: (ToolCall, ToolResult) -> string)
      returns (repeated: Repeated)
      requires Valid()
      modifies this
      ensures Valid() && recorded == old(recorded) + [FailureKey(call, r, identity)]
      ensures repeated == last && repeated.count == TrailingBlock(recorded)
      ensures repeated.count > 0 ==> FailureText(r) != ""
    {
      hide FailureText, TrailingBlock;
      var failureText := FailureText(r);
      BlockAfter(recorded, FailureKey(call, r, identity));
      recorded := recorded + [FailureKey(call, r, identity)];
      if failureText == "" {
        Reset();
        return last;
      }
      var status := FieldsOf(r.payload).status;
      var key := Key(if TrimSpace(r.name) == "" then call.name else r.name, status, failureText, identity(call, r));
      if Some(key) != lastKey {
        lastKey, last := Some(key), Repeated(1, status, failureText);
        return last;
      }
      last := Repeated(last.count + 1, status, failureText);
      repeated := last;
    }
  }

  const WARNING := "This tool has failed repeatedly with the same error. Do not retry the same call unchanged."

  function Warned(text: string, containsWarning: bool): string {
    if containsWarning then text else if text == "" then WARNING else text + "\n\n" + WARNING
  }

  /** Adds the warning to a repeated failure; `mentions` says whether a text contains it already. */
  function WithWarning(r: ToolResult, mentions: string -> bool): ToolResult {
    var error := if TrimSpace(r.error) == "" && FailureText(r) != "" then FailureText(r) else r.error;
    ToolResult(r.callId, r.name, Warned(r.content, mentions(r.content)),
               if r.payload.Decoded? then Decoded(r.payload.fields.(warning := WARNING))
               else r.payload, Warned(error, mentions(error)))
  }
}
