/** Http/Controllers/SettingsController.php: saving the settings form into the
    host's option store. The store is an object whose map the save updates
    key by key. */
module SettingsController {
  import opened Wrappers
  import opened PhpJson
  import JsonCodec
  import Options
  import Text
  import Provider = QonversionIntegrationServiceProvider

  /** A submitted `settings` array whose `mailboxes` entry, when set, is a list
      (`array_map` needs an array). */
  predicate MailboxesSubmittedAsList(submitted: Json) {
    match Path(submitted, [Options.MailboxesKey])
    case Some(v) => v.JArr?
    case None => true
  }

  /** The ids to store: `intval` of each submitted mailbox, in order; none when
      the field is absent. */
  function SubmittedMailboxIds(submitted: Json): (ids: seq<int>)
    requires MailboxesSubmittedAsList(submitted)
    ensures Path(submitted, [Options.MailboxesKey]).None? ==> ids == []
    ensures Path(submitted, [Options.MailboxesKey]).Some? ==>
      var items := Path(submitted, [Options.MailboxesKey]).value.items;
      |ids| == |items| && forall i :: 0 <= i < |items| ==> ids[i] == Intval(items[i])
  {
    match Path(submitted, [Options.MailboxesKey])
    case Some(v) => seq(|v.items|, i requires 0 <= i < |v.items| => Intval(v.items[i]))
    case None => []
  }

  /** Mailboxes submitted as decimal strings are stored as those integers:
      `["2","5"]` is saved as `[2,5]`. */
  lemma SubmittedDecimalStrings(submitted: Json, ids: seq<int>)
    requires forall i :: 0 <= i < |ids| ==> Text.PhpIntMin <= ids[i] <= Text.PhpIntMax
    requires Path(submitted, [Options.MailboxesKey]) ==
      Some(JArr(seq(|ids|, i requires 0 <= i < |ids| => JStr(Text.IntToString(ids[i])))))
    ensures MailboxesSubmittedAsList(submitted)
    ensures SubmittedMailboxIds(submitted) == ids
    ensures JsonCodec.EncodeIntList(SubmittedMailboxIds(submitted)) == JsonCodec.EncodeIntList(ids)
  {
    forall i | 0 <= i < |ids|
      ensures SubmittedMailboxIds(submitted)[i] == ids[i]
    {
      Text.IntvalOfIntToString(ids[i]);
    }
  }

  /** The form's `["2","5"]` is stored as the text `[2,5]`. */
  lemma SubmittedExample()
    ensures var submitted := JObj(map[Options.MailboxesKey := JArr([JStr("2"), JStr("5")])]);
      MailboxesSubmittedAsList(submitted)
      && JsonCodec.EncodeIntList(SubmittedMailboxIds(submitted)) == "[2,5]"
  {
    var submitted := JObj(map[Options.MailboxesKey := JArr([JStr("2"), JStr("5")])]);
    var ids := [2, 5];
    assert [JStr("2"), JStr("5")] == seq(|ids|, i requires 0 <= i < |ids| => JStr(Text.IntToString(ids[i])));
    SubmittedDecimalStrings(submitted, ids);
  }

  /** `key` maps to the same value, or is absent, in both stores. */
  ghost predicate Unchanged(before: Options.Store, after: Options.Store, key: string) {
    (key in before <==> key in after) && (key in before ==> before[key] == after[key])
  }

  /** `key` holds the submitted value when that is set, and is unchanged otherwise. */
  ghost predicate WrittenIfSet(before: Options.Store, after: Options.Store, submitted: Json, key: string) {
    match Path(submitted, [key])
    case Some(v) => key in after && after[key] == v
    case None => Unchanged(before, after, key)
  }

  /** A key written by one step keeps its value through later steps that leave it alone. */
  lemma WrittenThenUnchanged(before: Options.Store, middle: Options.Store, after: Options.Store, submitted: Json, key: string)
    requires WrittenIfSet(before, middle, submitted, key)
    requires Unchanged(middle, after, key)
    ensures WrittenIfSet(before, after, submitted, key)
  {
  }

  /** A key left alone by earlier steps and then written ends up written. */
  lemma UnchangedThenWritten(before: Options.Store, middle: Options.Store, after: Options.Store, submitted: Json, key: string)
    requires Unchanged(before, middle, key)
    requires WrittenIfSet(middle, after, submitted, key)
    ensures WrittenIfSet(before, after, submitted, key)
  {
  }

  class SettingsStore {
    var options: Options.Store

    constructor (initial: Options.Store)
      ensures options == initial
    {
      options := initial;
    }

    /** One `if (isset($settings[$key])) Option::set($key, ...)` step of `save`. */
    method WriteIfSet(submitted: Json, key: string)
      modifies this
      ensures WrittenIfSet(old(options), options, submitted, key)
      ensures forall other :: other != key ==> Unchanged(old(options), options, other)
    {
      var value := Path(submitted, [key]);
      if value.Some? {
        options := options[key := value.value];
      }
    }

    /** `save`: writes `project_key`, `project_id` and `environment` each only
        when submitted and not null, always writes `mailboxes` as the JSON list
        of the submitted ids, and touches no other option. */
    method Save(submitted: Json)
      requires MailboxesSubmittedAsList(submitted)
      modifies this
      ensures WrittenIfSet(old(options), options, submitted, Options.ProjectKeyKey)
      ensures WrittenIfSet(old(options), options, submitted, Options.ProjectIdKey)
      ensures WrittenIfSet(old(options), options, submitted, Options.EnvironmentKey)
      ensures Options.MailboxesKey in options
      ensures options[Options.MailboxesKey] == JStr(JsonCodec.EncodeIntList(SubmittedMailboxIds(submitted)))
      ensures Path(submitted, [Options.MailboxesKey]).None? ==> options[Options.MailboxesKey] == JStr("[]")
      ensures forall key :: key !in Options.OwnKeys ==> Unchanged(old(options), options, key)
      ensures Provider.AllowedMailboxes(options) == JArr(IntsToJson(SubmittedMailboxIds(submitted)))
    {
      Options.KeysDistinct();
      ghost var before := options;
      WriteIfSet(submitted, Options.ProjectKeyKey);
      ghost var afterKey := options;
      WriteIfSet(submitted, Options.ProjectIdKey);
      ghost var afterId := options;
      WriteIfSet(submitted, Options.EnvironmentKey);
      ghost var afterEnv := options;
      var ids := SubmittedMailboxIds(submitted);
      options := options[Options.MailboxesKey := JStr(JsonCodec.EncodeIntList(ids))];
      assert JsonCodec.EncodeIntList([]) == "[]";
      Provider.AllowListOfStoredIds(options, ids, 0);
      assert Unchanged(afterEnv, options, Options.ProjectKeyKey);
      assert Unchanged(afterEnv, options, Options.ProjectIdKey);
      assert Unchanged(afterEnv, options, Options.EnvironmentKey);
      WrittenThenUnchanged(before, afterKey, afterId, submitted, Options.ProjectKeyKey);
      WrittenThenUnchanged(before, afterId, afterEnv, submitted, Options.ProjectKeyKey);
      WrittenThenUnchanged(before, afterEnv, options, submitted, Options.ProjectKeyKey);
      UnchangedThenWritten(before, afterKey, afterId, submitted, Options.ProjectIdKey);
      WrittenThenUnchanged(before, afterId, afterEnv, submitted, Options.ProjectIdKey);
      WrittenThenUnchanged(before, afterEnv, options, submitted, Options.ProjectIdKey);
      UnchangedThenWritten(afterKey, afterId, afterEnv, submitted, Options.EnvironmentKey);
      UnchangedThenWritten(before, afterKey, afterEnv, submitted, Options.EnvironmentKey);
      WrittenThenUnchanged(before, afterEnv, options, submitted, Options.EnvironmentKey);
      forall key | key !in Options.OwnKeys
        ensures Unchanged(before, options, key)
      {
        assert Unchanged(before, afterKey, key) && Unchanged(afterKey, afterId, key);
        assert Unchanged(afterId, afterEnv, key) && Unchanged(afterEnv, options, key);
      }
    }
  }

  /** Round trip: whatever a store held, the allow-list the sidebar reads after
      storing the `json_encode` of some ids is exactly those ids. */
  lemma SavedIdsReadBack(store: Options.Store, ids: seq<int>, id: int)
    ensures Provider.AllowedMailboxes(store[Options.MailboxesKey := JStr(JsonCodec.EncodeIntList(ids))])
      == JArr(IntsToJson(ids))
    ensures Provider.MailboxAllowed(store[Options.MailboxesKey := JStr(JsonCodec.EncodeIntList(ids))], id)
      == Some(ids == [] || id in ids)
  {
    Provider.AllowListOfStoredIds(store[Options.MailboxesKey := JStr(JsonCodec.EncodeIntList(ids))], ids, id);
  }
}
