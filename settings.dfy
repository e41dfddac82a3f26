/** The widget configuration: the defaults (`get_default_config`) and the
    merge order of `get_config`. */
module Settings {
  import opened Values

  const DefaultKeys: set<string> := {
    "datatype", "autowidth", "forcefit", "ignoreCase", "shrinkToFit", "jsonReader", "rowNum",
    "rowList", "sortname", "viewrecords", "sortorder", "pager", "altRows", "gridview", "height"
  }

  /** The keys the grid itself sets last. */
  const GridKeys: set<string> := {"url", "caption", "colModel"}

  /** `get_default_config`. `jsonReader` and `rowList` are a non-empty
      dictionary and a non-empty list. */
  function DefaultConfig(pagerId: string): Config {
    map[
      "datatype" := Plain(Str("json")),
      "autowidth" := Plain(Boolean(true)),
      "forcefit" := Plain(Boolean(true)),
      "ignoreCase" := Plain(Boolean(true)),
      "shrinkToFit" := Plain(Boolean(true)),
      "jsonReader" := Plain(Other(true)),
      "rowNum" := Plain(Int(10)),
      "rowList" := Plain(Other(true)),
      "sortname" := Plain(Str("id")),
      "viewrecords" := Plain(Boolean(true)),
      "sortorder" := Plain(Str("asc")),
      "pager" := Plain(Str(pagerId)),
      "altRows" := Plain(Boolean(true)),
      "gridview" := Plain(Boolean(true)),
      "height" := Plain(Str("auto"))
    ]
  }

  /** `get_config(False)`: the defaults, updated with the grid's extra
      configuration, updated with its URL, caption and column models. */
  function MergeConfig(pagerId: string, extra: Config, url: string, caption: string, columns: seq<ColModel>): Config {
    DefaultConfig(pagerId) + extra
      + map["url" := Plain(Str(url)), "caption" := Plain(Str(caption)), "colModel" := ColModels(columns)]
  }

  /** The defaults hold every default key, `ignoreCase` on and ten rows. */
  lemma DefaultsHold(pagerId: string)
    ensures DefaultConfig(pagerId).Keys == DefaultKeys
    ensures DefaultConfig(pagerId)["ignoreCase"] == Plain(Boolean(true))
    ensures DefaultConfig(pagerId)["rowNum"] == Plain(Int(10))
  {
  }

  /** The URL, caption and column models always win; otherwise the extra
      configuration wins over the defaults; no key is lost. */
  lemma MergePrecedence(pagerId: string, extra: Config, url: string, caption: string, columns: seq<ColModel>)
    ensures var c := MergeConfig(pagerId, extra, url, caption, columns);
      && c.Keys == DefaultKeys + extra.Keys + GridKeys
      && c["url"] == Plain(Str(url)) && c["caption"] == Plain(Str(caption)) && c["colModel"] == ColModels(columns)
      && (forall k :: k in extra && k !in GridKeys ==> c[k] == extra[k])
      && (forall k :: k in DefaultKeys && k !in extra ==> c[k] == DefaultConfig(pagerId)[k])
  {
    MergeKeys(pagerId, extra, url, caption, columns);
    MergeExtraWins(pagerId, extra, url, caption, columns);
    MergeDefaultsFill(pagerId, extra, url, caption, columns);
  }

  lemma MergeKeys(pagerId: string, extra: Config, url: string, caption: string, columns: seq<ColModel>)
    ensures MergeConfig(pagerId, extra, url, caption, columns).Keys == DefaultKeys + extra.Keys + GridKeys
  {
    DefaultsHold(pagerId);
  }

  lemma MergeExtraWins(pagerId: string, extra: Config, url: string, caption: string, columns: seq<ColModel>)
    ensures var c := MergeConfig(pagerId, extra, url, caption, columns);
      forall k :: k in extra && k !in GridKeys ==> c[k] == extra[k]
  {
  }

  lemma MergeDefaultsFill(pagerId: string, extra: Config, url: string, caption: string, columns: seq<ColModel>)
    ensures var c := MergeConfig(pagerId, extra, url, caption, columns);
      forall k :: k in DefaultKeys && k !in extra ==> k in c && c[k] == DefaultConfig(pagerId)[k]
  {
    DefaultsHold(pagerId);
    DefaultKeysApart();
  }

  /** No default key is one the grid sets last. */
  lemma DefaultKeysApart()
    ensures forall k :: k in DefaultKeys ==> k !in GridKeys
  {
  }

  /** `ignoreCase` and `rowNum` are always there; unless the extra
      configuration sets them they are on and ten. */
  lemma ConfigKeepsSearchSettings(pagerId: string, extra: Config, url: string, caption: string, columns: seq<ColModel>)
    ensures var c := MergeConfig(pagerId, extra, url, caption, columns);
      && "ignoreCase" in c && "rowNum" in c
      && c["ignoreCase"] == (if "ignoreCase" in extra then extra["ignoreCase"] else Plain(Boolean(true)))
      && c["rowNum"] == (if "rowNum" in extra then extra["rowNum"] else Plain(Int(10)))
  {
    MergePrecedence(pagerId, extra, url, caption, columns);
    DefaultsHold(pagerId);
    assert "ignoreCase" in DefaultKeys && "rowNum" in DefaultKeys;
    assert "ignoreCase" !in GridKeys && "rowNum" !in GridKeys;
  }
}
