/**
 * The browser's settings and profile helpers: the recursive dictionary
 * merge `deep_update`, `load_config`'s choice between the shipped defaults
 * and the defaults merged with the settings file, and the guards of
 * `create_profile` and `delete_profile`. The file system is a parameter:
 * what the settings file holds, and whether a directory operation succeeds.
 */
module Utils {
  import opened Common
  import opened Json

  // ----- deep_update -----

  /** The entry `deep_update` leaves under a key of `source`. */
  function MergedEntry(target: map<string, Json>, key: string, value: Json): (r: Json)
    decreases value, 1
  {
    if key in target && target[key].JObj? && value.JObj? then JObj(DeepUpdate(target[key].fields, value.fields))
    else value
  }

  /**
   * `target` after `deep_update(target, source)`: a key of the source whose
   * value and target value are both dicts is merged recursively; any other
   * key of the source takes the source value; other keys are kept.
   */
  function DeepUpdate(target: map<string, Json>, source: map<string, Json>): (r: map<string, Json>)
    ensures r.Keys == target.Keys + source.Keys
    ensures forall k :: k in target && k !in source ==> r[k] == target[k]
    decreases JObj(source), 0
  {
    map k | k in target.Keys + source.Keys ::
      if k in source then MergedEntry(target, k, source[k]) else target[k]
  }

  /** Every value of `source` can be found in `r`, down to the leaves of nested dicts. */
  predicate Covers(r: map<string, Json>, source: map<string, Json>)
    decreases JObj(source)
  {
    forall k :: k in source ==>
      k in r && if source[k].JObj? then r[k].JObj? && Covers(r[k].fields, source[k].fields) else r[k] == source[k]
  }

  lemma {:induction false} CoversSelf(source: map<string, Json>)
    ensures Covers(source, source)
    decreases JObj(source)
  {
    forall k | k in source && source[k].JObj?
      ensures Covers(source[k].fields, source[k].fields)
    {
      assert JObj(source[k].fields) == source[k];
      CoversSelf(source[k].fields);
    }
  }

  /** After the update every key and every leaf value of the source is in the target. */
  lemma {:induction false} DeepUpdateCoversSource(target: map<string, Json>, source: map<string, Json>)
    ensures Covers(DeepUpdate(target, source), source)
    decreases JObj(source)
  {
    var r := DeepUpdate(target, source);
    forall k | k in source && source[k].JObj?
      ensures r[k].JObj? && Covers(r[k].fields, source[k].fields)
    {
      assert JObj(source[k].fields) == source[k];
      assert r[k] == MergedEntry(target, k, source[k]);
      if k in target && target[k].JObj? {
        DeepUpdateCoversSource(target[k].fields, source[k].fields);
      } else {
        CoversSelf(source[k].fields);
      }
    }
  }

  /** Updating a second time with the same source changes nothing. */
  lemma {:induction false} DeepUpdateIdempotent(target: map<string, Json>, source: map<string, Json>)
    ensures DeepUpdate(DeepUpdate(target, source), source) == DeepUpdate(target, source)
    decreases JObj(source)
  {
    var once := DeepUpdate(target, source);
    var twice := DeepUpdate(once, source);
    forall k | k in source
      ensures twice[k] == once[k]
    {
      var v := source[k];
      if v.JObj? {
        assert JObj(v.fields) == v;
        if k in target && target[k].JObj? {
          DeepUpdateIdempotent(target[k].fields, v.fields);
        } else {
          DeepUpdateSelf(v.fields);
        }
      }
    }
  }

  /** Updating a dict with itself gives the same dict. */
  lemma {:induction false} DeepUpdateSelf(source: map<string, Json>)
    ensures DeepUpdate(source, source) == source
    decreases JObj(source)
  {
    forall k | k in source && source[k].JObj?
      ensures DeepUpdate(source[k].fields, source[k].fields) == source[k].fields
    {
      assert JObj(source[k].fields) == source[k];
      DeepUpdateSelf(source[k].fields);
    }
  }

  /** The source restricted to the keys already visited by the loop. */
  function Visited(source: map<string, Json>, done: set<string>): (r: map<string, Json>)
    ensures r.Keys == source.Keys * done
  {
    map k | k in source.Keys * done :: source[k]
  }

  /** One more key of the source visited: only that key of the result changes. */
  lemma VisitOneMore(target: map<string, Json>, source: map<string, Json>, done: set<string>, key: string)
    requires key in source && key !in done
    ensures DeepUpdate(target, Visited(source, done + {key}))
      == DeepUpdate(target, Visited(source, done))[key := MergedEntry(target, key, source[key])]
  {
    var before := Visited(source, done);
    var after := Visited(source, done + {key});
    assert after == before[key := source[key]];
    var lhs := DeepUpdate(target, after);
    var rhs := DeepUpdate(target, before)[key := MergedEntry(target, key, source[key])];
    assert lhs.Keys == rhs.Keys;
    forall k | k in lhs.Keys
      ensures lhs[k] == rhs[k]
    {
      if k != key && k in before {
        assert MergedEntry(target, k, after[k]) == MergedEntry(target, k, before[k]);
      }
    }
  }

  /** `deep_update`: the loop over the source's items, recursing into dicts present on both sides. */
  method DeepUpdateInPlace(target: map<string, Json>, source: map<string, Json>) returns (updated: map<string, Json>)
    ensures updated == DeepUpdate(target, source)
    decreases JObj(source)
  {
    updated := target;
    var done: set<string> := {};
    assert Visited(source, done) == map[];
    assert DeepUpdate(target, map[]) == target;
    while source.Keys - done != {}
      invariant done <= source.Keys
      invariant updated == DeepUpdate(target, Visited(source, done))
      decreases source.Keys - done
    {
      var key :| key in source.Keys - done;
      var value := source[key];
      assert key !in Visited(source, done);
      if key in updated && updated[key].JObj? && value.JObj? {
        assert JObj(value.fields) == value;
        var nested := DeepUpdateInPlace(updated[key].fields, value.fields);
        updated := updated[key := JObj(nested)];
      } else {
        updated := updated[key := value];
      }
      VisitOneMore(target, source, done, key);
      done := done + {key};
    }
    assert done == source.Keys by {
      forall k | k in source.Keys ensures k in done {
        assert k !in source.Keys - done;
      }
    }
    assert Visited(source, done) == source;
  }

  // ----- load_config -----

  /** `DEFAULT_CONFIG` as shipped. */
  const DefaultConfig: map<string, Json> := map[
    "general" := JObj(map[
      "default_profile" := JStr("default"),
      "start_url" := JStr("https://www.google.com"),
      "save_session" := JBool(true),
      "clear_cache_on_exit" := JBool(false)]),
    "browser" := JObj(map[
      "user_agent" := JStr(""),
      "javascript_enabled" := JBool(true),
      "cookies_enabled" := JBool(true),
      "plugins_enabled" := JBool(true),
      "developer_extras_enabled" := JBool(true)]),
    "ui" := JObj(map[
      "theme" := JStr("system"),
      "font_family" := JStr(""),
      "font_size" := JInt(10),
      "show_status_bar" := JBool(true),
      "show_bookmarks_bar" := JBool(true)])]

  /** What opening and decoding the settings file gives. */
  datatype ConfigFile = Missing | Decoded(data: Json) | Unreadable

  /**
   * The settings `load_config` returns: the defaults when the file is
   * missing, cannot be read or decoded, or holds something other than an
   * object (whose missing `items` raises inside the `try`); otherwise the
   * defaults updated with the file's object.
   */
  function LoadedConfig(defaults: map<string, Json>, file: ConfigFile): (r: map<string, Json>)
    ensures defaults.Keys <= r.Keys
    ensures file.Decoded? && file.data.JObj? ==> Covers(r, file.data.fields)
    ensures !(file.Decoded? && file.data.JObj?) ==> r == defaults
  {
    if file.Decoded? && file.data.JObj? then
      DeepUpdateCoversSource(defaults, file.data.fields);
      DeepUpdate(defaults, file.data.fields)
    else defaults
  }

  /** A default setting the file does not mention keeps its default value. */
  lemma LoadedKeepsUnmentioned(file: ConfigFile, section: string, key: string)
    requires section in DefaultConfig && key in DefaultConfig[section].fields
    requires file.Decoded? && file.data.JObj?
    requires section !in file.data.fields
      || (file.data.fields[section].JObj? && key !in file.data.fields[section].fields)
    ensures var r := LoadedConfig(DefaultConfig, file);
      section in r && r[section].JObj? && key in r[section].fields
      && r[section].fields[key] == DefaultConfig[section].fields[key]
  {
    var source := file.data.fields;
    var r := DeepUpdate(DefaultConfig, source);
    assert r[section] == if section in source then MergedEntry(DefaultConfig, section, source[section])
      else DefaultConfig[section];
  }

  /**
   * `DEFAULT_CONFIG` after `load_config` merged a file object into its
   * shallow copy: each section that is a dict on both sides is updated in
   * place, because the copy shares it with the defaults.
   */
  function SharedSections(defaults: map<string, Json>, source: map<string, Json>): (r: map<string, Json>)
    ensures r.Keys == defaults.Keys
  {
    map k | k in defaults ::
      if k in source && defaults[k].JObj? && source[k].JObj? then MergedEntry(defaults, k, source[k])
      else defaults[k]
  }

  /** The settings file that picks the dark theme and nothing else. */
  const DarkTheme: map<string, Json> := map["ui" := JObj(map["theme" := JStr("dark")])]

  /** After loading a file that picks the dark theme, the shipped defaults themselves say "dark". */
  lemma DefaultsLeakAfterLoad()
    ensures DefaultConfig["ui"].fields["theme"] == JStr("system")
    ensures SharedSections(DefaultConfig, DarkTheme)["ui"].fields["theme"] == JStr("dark")
  {
    var ui := DefaultConfig["ui"].fields;
    var merged := DeepUpdate(ui, DarkTheme["ui"].fields);
    assert merged["theme"] == JStr("dark");
  }

  /** The process-wide `DEFAULT_CONFIG`, which a load can change in place. */
  class ConfigStore {
    var defaults: map<string, Json>

    constructor()
      ensures defaults == DefaultConfig
    {
      defaults := DefaultConfig;
    }

    /** `load_config` as written: the merge target is `DEFAULT_CONFIG.copy()`. */
    method LoadConfigSharedCopy(file: ConfigFile) returns (config: map<string, Json>)
      modifies this`defaults
      ensures config == LoadedConfig(old(defaults), file)
      ensures defaults == if file.Decoded? && file.data.JObj? then SharedSections(old(defaults), file.data.fields)
        else old(defaults)
    {
      if file.Missing? || file.Unreadable? || !file.data.JObj? {
        return defaults;
      }
      var source := file.data.fields;
      config := DeepUpdateInPlace(defaults, source);
      defaults := SharedSections(defaults, source);
    }

    /** `load_config` with a deep copy of the defaults as the merge target: the defaults stay as they were. */
    method LoadConfig(file: ConfigFile) returns (config: map<string, Json>)
      ensures config == LoadedConfig(defaults, file)
    {
      if file.Missing? || file.Unreadable? || !file.data.JObj? {
        return defaults;
      }
      config := DeepUpdateInPlace(defaults, file.data.fields);
    }
  }

  // ----- profiles -----

  /** Outcome of `create_profile`: whether it succeeded, and the profile directories after it. */
  function CreatedProfile(profiles: set<string>, name: string, mkdirSucceeds: bool): (r: (bool, set<string>))
    ensures r.0 <==> name !in profiles && mkdirSucceeds
    ensures r.1 == if r.0 then profiles + {name} else profiles
  {
    if name in profiles then (false, profiles)
    else if mkdirSucceeds then (true, profiles + {name})
    else (false, profiles)
  }

  /** Outcome of `delete_profile`: whether it succeeded, and the profile directories after it. */
  function DeletedProfile(profiles: set<string>, name: string, removeSucceeds: bool): (r: (bool, set<string>))
    ensures r.0 <==> name != "default" && name in profiles && removeSucceeds
    ensures r.1 == if r.0 then profiles - {name} else profiles
  {
    if name == "default" then (false, profiles)
    else if name !in profiles then (false, profiles)
    else if removeSucceeds then (true, profiles - {name})
    else (false, profiles)
  }

  /** A deletion asked for the name "default" is refused, so that profile stays. */
  lemma DefaultProfileKept(profiles: set<string>, name: string, removeSucceeds: bool)
    requires "default" in profiles
    ensures "default" in DeletedProfile(profiles, name, removeSucceeds).1
  {
  }

  /** Deleting a freshly created profile gives back the profiles there were before. */
  lemma CreateThenDelete(profiles: set<string>, name: string)
    requires name != "default" && name !in profiles
    ensures CreatedProfile(profiles, name, true).0
    ensures DeletedProfile(CreatedProfile(profiles, name, true).1, name, true) == (true, profiles)
  {
  }

  /** The profile directories under the settings directory. */
  class ProfileStore {
    var profiles: set<string>

    constructor(existing: set<string>)
      ensures profiles == existing
    {
      profiles := existing;
    }

    method CreateProfile(name: string, mkdirSucceeds: bool) returns (ok: bool)
      modifies this
      ensures (ok, profiles) == CreatedProfile(old(profiles), name, mkdirSucceeds)
    {
      if name in profiles {
        return false;
      }
      if !mkdirSucceeds {
        return false;
      }
      profiles := profiles + {name};
      ok := true;
    }

    method DeleteProfile(name: string, removeSucceeds: bool) returns (ok: bool)
      modifies this
      ensures (ok, profiles) == DeletedProfile(old(profiles), name, removeSucceeds)
    {
      if name == "default" {
        return false;
      }
      if name !in profiles {
        return false;
      }
      if !removeSucceeds {
        return false;
      }
      profiles := profiles - {name};
      ok := true;
    }
  }
}
