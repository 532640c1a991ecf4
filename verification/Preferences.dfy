/** The preference repository: a cache in memory and a table of texts that must agree. */
module Preferences {
  import opened Basics
  import opened Texts
  import opened PreferenceValues

  type Prefs = map<string, Value>

  type Table = map<string, string>

  datatype Setting = Setting(key: string, kind: Kind, initial: Value)

  const EXPORT_LIMIT: nat := 2048

  // ----- the catalogue -----

  function Switches(): seq<Setting> {
    [ Setting("showHiddenFiles", Switch, Flag(false)),
      Setting("activityPanelVisible", Switch, Flag(false)),
      Setting("confirmDelete", Switch, Flag(true)),
      Setting("confirmPermanentDelete", Switch, Flag(true)),
      Setting("useTrashByDefault", Switch, Flag(false)),
      Setting("confirmOverwrite", Switch, Flag(true)),
      Setting("sidebarVisible", Switch, Flag(false)),
      Setting("statusBarVisible", Switch, Flag(true)),
      Setting("toolbarVisible", Switch, Flag(true)),
      Setting("popupNotifications", Switch, Flag(false)),
      Setting("showAdvancedCopyOptions", Switch, Flag(false)),
      Setting("paneTerminalDefaultOpen", Switch, Flag(false)),
      Setting("terminalCdOnNavigate", Switch, Flag(false)),
      Setting("confirmClosePaneWithTerminal", Switch, Flag(true)),
      Setting("rememberLastUsedPanes", Switch, Flag(true)),
      Setting("experimentalFeatures", Switch, Flag(false)),
      Setting("networkAutoReconnect", Switch, Flag(true)),
      Setting("networkUseSshAgent", Switch, Flag(false)),
      Setting("editorWordWrap", Switch, Flag(true)),
      Setting("editorAutoSave", Switch, Flag(false)),
      Setting("editorSyntaxHighlighting", Switch, Flag(true)),
      Setting("editorLineNumbers", Switch, Flag(true)),
      Setting("viewerMediaAutoplay", Switch, Flag(false)) ]
  }

  function Choices(): seq<Setting> {
    [ Setting("theme", OneOf(["system", "light", "dark", "commander-blue", "aubergine-technical"]), Text("system")),
      Setting("density", OneOf(["compact", "comfortable", "spacious"]), Text("comfortable")),
      Setting("defaultViewMode", OneOf(["details", "list", "icons", "columns"]), Text("details")),
      Setting("defaultConflictPolicy", OneOf(["fail", "skip", "overwrite", "renameNew", "renameExisting"]), Text("fail")),
      Setting("accentColor", OneOf(["blue", "indigo", "violet", "pink", "red", "orange", "amber", "green"]), Text("blue")),
      Setting("fontScale", OneOf(["small", "medium", "large"]), Text("medium")),
      Setting("iconScale", OneOf(["small", "medium", "large"]), Text("medium")),
      Setting("paneMode", OneOf(["dual", "single"]), Text("dual")),
      Setting("paneDirection", OneOf(["horizontal", "vertical"]), Text("horizontal")),
      Setting("jobDrawerBehavior", OneOf(["manual", "openOnError", "openOnStart"]), Text("manual")) ]
  }

  function LowerChoices(): seq<Setting> {
    [ Setting("logLevel", OneOfLower(["error", "warn", "info", "debug"]), Text("warn")),
      Setting("networkDefaultProtocol", OneOfLower(["sftp", "smb", "s3", "webdav"]), Text("sftp")),
      Setting("viewerDefaultViewMode", OneOfLower(["text", "hex"]), Text("text")),
      Setting("viewerImageZoom", OneOfLower(["fit", "fill", "actual"]), Text("fit")) ]
  }

  function Numbers(o: Outside): seq<Setting> {
    [ Setting("sidebarWidth", Range(160, 480), Number(240)),
      Setting("activityPanelWidth", Range(200, 480), Number(288)),
      Setting("cacheSizeLimit", Range(16, 4096), Number(256)),
      Setting("fileOperationThreads", Range(1, 32), Number(4)),
      Setting("networkConnectionTimeout", Range(5, 300), Number(30)),
      Setting("editorFontSize", Range(8, 72), Number(14)),
      Setting("editorTabSize", Range(1, 16), Number(4)),
      Setting("viewerMaxPreviewSize", Range(1, 1024), Number(10)),
      Setting("operationIdleTimeoutSecs", ZeroOrRange(10, 86400), Number(300)),
      Setting("splitRatio", RealRange(o.literal(0.2), o.literal(0.8)), Fraction(Finite(o.literal(0.5)))),
      Setting("paneTerminalHeightLeft", RealRange(o.literal(0.15), o.literal(0.85)), Fraction(Finite(o.literal(0.35)))),
      Setting("paneTerminalHeightRight", RealRange(o.literal(0.15), o.literal(0.85)), Fraction(Finite(o.literal(0.35)))) ]
  }

  function TextSettings(o: Outside): seq<Setting> {
    [ Setting("terminalShell", ShortText(512), Text("")),
      Setting("editorFontFamily", ShortText(512), Text("monospace")),
      Setting("networkSshKeyPath", ShortText(2048), Text("")),
      Setting("terminalArgs", Arguments(2048), Text("")),
      Setting("customShortcuts", Json(65536), Text("")),
      Setting("fileTypeColorRules", Json(65536), Text("")),
      Setting("layoutProfiles", Json(65536), Text("")),
      Setting("columnPresets", Json(65536), Text("")),
      Setting("tabSessions", Json(65536), Text("")),
      Setting("hotlistEntries", Json(65536), Text("")),
      Setting("toolbarEntries", JsonArray, Text("")),
      Setting("diagnosticsExportPath", ExportPath(EXPORT_LIMIT), Text(o.defaultExportPath)) ]
  }

  function ByKey(settings: seq<Setting>): map<string, Setting> {
    if settings == [] then map[] else ByKey(settings[1..])[settings[0].key := settings[0]]
  }

  function Catalogue(o: Outside): map<string, Setting> {
    ByKey(Switches() + Choices() + LowerChoices() + Numbers(o) + TextSettings(o))
  }

  /** The default is a value that its own print gives back; for the export path it is the
      machine's. */
  predicate SettingOk(o: Outside, s: Setting) {
    && KindOk(o, s.kind)
    && (s.kind.ExportPath? ==> s.kind.limit == EXPORT_LIMIT && s.initial == Text(o.defaultExportPath))
    && (!s.kind.ExportPath? ==> Canonical(o, s.kind, s.initial))
  }

  predicate AllOk(o: Outside, settings: seq<Setting>) {
    forall i :: 0 <= i < |settings| ==> SettingOk(o, settings[i])
  }

  lemma SwitchesOk(o: Outside)
    ensures AllOk(o, Switches())
  {
  }

  lemma {:induction false} TrimLetters(s: string)
    requires s != "" && 'a' <= s[0] <= 'z' && '0' <= s[|s| - 1] <= 'z'
    ensures Trim(s) == s
  {
    assert Trimmed(s);
    var from := TrimMeaning(s);
  }

  predicate LowerWord(s: string) {
    s != "" && 'a' <= s[0] <= 'z' && '0' <= s[|s| - 1] <= 'z' && forall i :: 0 <= i < |s| ==> !('A' <= s[i] <= 'Z')
  }

  lemma LowerWordStays(s: string)
    requires LowerWord(s)
    ensures Lower(Trim(s)) == s
  {
    TrimLetters(s);
    assert Lower(s) == s;
  }

  lemma LowerChoiceOk(o: Outside, key: string, choices: seq<string>, initial: string)
    requires forall c :: c in choices ==> LowerWord(c)
    requires initial in choices
    ensures SettingOk(o, Setting(key, OneOfLower(choices), Text(initial)))
  {
    hide Lower, Trim, LowerWord;
    forall c | c in choices ensures Lower(Trim(c)) == c { LowerWordStays(c); }
  }

  lemma ChoicesOk(o: Outside)
    ensures AllOk(o, Choices())
  {
    hide Lower, Trim, Bytes, ParseU32, ArgLines;
  }

  lemma LowerChoicesOk(o: Outside)
    ensures AllOk(o, LowerChoices())
  {
    hide SettingOk;
    LowerChoiceOk(o, "logLevel", ["error", "warn", "info", "debug"], "warn");
    LowerChoiceOk(o, "networkDefaultProtocol", ["sftp", "smb", "s3", "webdav"], "sftp");
    LowerChoiceOk(o, "viewerDefaultViewMode", ["text", "hex"], "text");
    LowerChoiceOk(o, "viewerImageZoom", ["fit", "fill", "actual"], "fit");
  }

  lemma NumbersOk(o: Outside)
    requires PrinterOk(o)
    ensures AllOk(o, Numbers(o))
  {
    hide ParseU32, Decimal;
    ParsePrinted(4);
    ParsePrinted(10);
    ParsePrinted(14);
    ParsePrinted(30);
    ParsePrinted(240);
    ParsePrinted(256);
    ParsePrinted(288);
    ParsePrinted(300);
  }

  lemma TextSettingsOk(o: Outside)
    ensures AllOk(o, TextSettings(o))
  {
    hide Trim, Bytes;
    EmptyText();
    TrimLetters("monospace");
    assert Bytes("monospace") <= 512 by { BytesAtMost("monospace"); }
  }

  lemma EmptyText()
    ensures Trim("") == "" && Bytes("") == 0 && ArgLines("") == ""
  {
  }

  ghost predicate CatalogueOk(o: Outside, cat: map<string, Setting>) {
    forall k :: k in cat ==> SettingOk(o, cat[k])
  }

  lemma {:induction false} ByKeyOk(o: Outside, settings: seq<Setting>)
    requires AllOk(o, settings)
    ensures CatalogueOk(o, ByKey(settings))
  {
    hide SettingOk;
    if settings != [] { ByKeyOk(o, settings[1..]); }
  }

  lemma OurCatalogueOk(o: Outside)
    requires PrinterOk(o)
    ensures CatalogueOk(o, Catalogue(o))
  {
    hide SettingOk, Switches, Choices, LowerChoices, Numbers, TextSettings;
    SwitchesOk(o);
    ChoicesOk(o);
    LowerChoicesOk(o);
    NumbersOk(o);
    TextSettingsOk(o);
    ByKeyOk(o, Switches() + Choices() + LowerChoices() + Numbers(o) + TextSettings(o));
  }

  // ----- reading and writing -----

  function Defaults(cat: map<string, Setting>): Prefs {
    map k | k in cat :: cat[k].initial
  }

  /** Setting one key changes its own value only; a key that is not in the catalogue changes
      nothing and is no error. */
  function ApplyValue(o: Outside, cat: map<string, Setting>, prefs: Prefs, key: string, value: string): Option<Prefs> {
    if key !in cat then Some(prefs)
    else match Parse(o, cat[key].kind, value) case None => None case Some(v) => Some(prefs[key := v])
  }

  predicate Acceptable(o: Outside, cat: map<string, Setting>, rows: Table) {
    forall k :: k in rows && k in cat ==> Parse(o, cat[k].kind, rows[k]).Some?
  }

  /** What a table says, whatever the order of its rows. */
  function Read(o: Outside, cat: map<string, Setting>, rows: Table): Option<Prefs> {
    if Acceptable(o, cat, rows) then
      Some(map k | k in cat :: if k in rows then Parse(o, cat[k].kind, rows[k]).value else cat[k].initial)
    else None
  }

  function Written(o: Outside, rows: Table, prefs: Prefs): Table {
    rows + map k | k in prefs :: Print(o, prefs[k])
  }

  method ReadAll(o: Outside, cat: map<string, Setting>, rows: Table) returns (r: Option<Prefs>)
    ensures r == Read(o, cat, rows)
  {
    hide Parse;
    var prefs, todo := Defaults(cat), rows.Keys;
    while todo != {}
      invariant todo <= rows.Keys && prefs.Keys == cat.Keys
      invariant forall k :: k in rows && k !in todo && k in cat ==> Parse(o, cat[k].kind, rows[k]) == Some(prefs[k])
      invariant forall k :: k in cat && (k !in rows || k in todo) ==> prefs[k] == cat[k].initial
      decreases todo
    {
      var k :| k in todo;
      todo := todo - {k};
      var applied := ApplyValue(o, cat, prefs, k, rows[k]);
      if applied.None? { return None; }
      prefs := applied.value;
    }
    assert prefs == Read(o, cat, rows).value;
    r := Some(prefs);
  }

  predicate ExportPathsReadable(o: Outside, cat: map<string, Setting>) {
    forall k :: k in cat && cat[k].kind.ExportPath? ==> DefaultPathReadable(o, cat[k].kind.limit)
  }

  predicate ExportPathsOk(o: Outside, cat: map<string, Setting>) {
    forall k :: k in cat && cat[k].kind.ExportPath? ==> DefaultPathOk(o, cat[k].kind.limit)
  }

  lemma DefaultCanonical(o: Outside, s: Setting)
    requires PrinterOk(o) && SettingOk(o, s)
    ensures Canonical(o, s.kind, s.initial) <==> (s.kind.ExportPath? ==> DefaultPathOk(o, s.kind.limit))
    ensures Parse(o, s.kind, Print(o, s.initial)).Some? <==> (s.kind.ExportPath? ==> DefaultPathReadable(o, s.kind.limit))
  {
    hide Trim, Trimmed, Bytes;
    TrimTwice(o.defaultExportPath);
  }

  /** A table that has just been written reads as what was written exactly if every value is one
      that its own print gives back. */
  lemma WrittenReads(o: Outside, cat: map<string, Setting>, rows: Table, prefs: Prefs)
    requires prefs.Keys == cat.Keys
    ensures Read(o, cat, Written(o, rows, prefs)) == Some(prefs) <==> forall k :: k in cat ==> Canonical(o, cat[k].kind, prefs[k])
  {
    hide Parse, Print;
    var written := Written(o, rows, prefs);
    assert forall k :: k in cat ==> k in written && written[k] == Print(o, prefs[k]);
    if forall k :: k in cat ==> Canonical(o, cat[k].kind, prefs[k]) {
      assert Read(o, cat, written).value == prefs;
    } else {
      var k :| k in cat && !Canonical(o, cat[k].kind, prefs[k]);
      if Read(o, cat, written).Some? { assert Read(o, cat, written).value[k] != prefs[k]; }
    }
  }

  /** Setting a value keeps all others canonical. */
  lemma SetCanonical(o: Outside, cat: map<string, Setting>, prefs: Prefs, key: string, value: string)
    requires PrinterOk(o) && CatalogueOk(o, cat) && prefs.Keys == cat.Keys
    requires forall k :: k in cat ==> Canonical(o, cat[k].kind, prefs[k])
    requires ApplyValue(o, cat, prefs, key, value).Some?
    ensures var after := ApplyValue(o, cat, prefs, key, value).value;
      && after.Keys == cat.Keys
      && ((forall k :: k in cat ==> Canonical(o, cat[k].kind, after[k]))
           <==> (key in cat && cat[key].kind.ExportPath? && Trim(value) == "" ==> DefaultPathOk(o, cat[key].kind.limit)))
  {
    hide Parse, Print, DefaultPathOk;
    if key in cat {
      assert SettingOk(o, cat[key]);
      NormalisedStays(o, cat[key].kind, value);
    }
  }

  /** What a call leaves, without reading the text: a text is accepted exactly if it says something
      to its key, and then its key has what it says. */
  lemma SetSays(o: Outside, cat: map<string, Setting>, prefs: Prefs, key: string, value: string)
    requires CatalogueOk(o, cat)
    ensures var after := ApplyValue(o, cat, prefs, key, value);
      && (after.Some? <==> (key in cat ==> exists v :: Says(o, cat[key].kind, value, v)))
      && (after.Some? ==>
            && prefs.Keys <= after.value.Keys && (forall k :: k in prefs && k != key ==> after.value[k] == prefs[k])
            && (key in cat ==> key in after.value && Says(o, cat[key].kind, value, after.value[key])))
  {
    hide Parse, Says, SettingOk;
    if key in cat {
      assert SettingOk(o, cat[key]);
      SettingSays(o, cat[key], value);
    }
  }

  lemma SettingSays(o: Outside, s: Setting, value: string)
    requires SettingOk(o, s)
    ensures Parse(o, s.kind, value).Some? ==> Says(o, s.kind, value, Parse(o, s.kind, value).value)
    ensures Parse(o, s.kind, value).Some? <==> exists v :: Says(o, s.kind, value, v)
  {
    hide Parse, Says, KindOk;
    forall v ensures Parse(o, s.kind, value) == Some(v) <==> Says(o, s.kind, value, v) {
      ParseSays(o, s.kind, value, v);
    }
  }

  lemma WrittenRows(o: Outside, rows: Table, prefs: Prefs)
    ensures var written := Written(o, rows, prefs);
      && written.Keys == rows.Keys + prefs.Keys
      && (forall k :: k in prefs ==> written[k] == Print(o, prefs[k]))
      && (forall k :: k in rows && k !in prefs ==> written[k] == rows[k])
  {
    hide Print;
  }

  /** What reading a table gives, said in the same way. */
  lemma ReadSays(o: Outside, cat: map<string, Setting>, rows: Table)
    requires CatalogueOk(o, cat)
    ensures Read(o, cat, rows).Some? <==> forall k :: k in rows && k in cat ==> exists v :: Says(o, cat[k].kind, rows[k], v)
    ensures Read(o, cat, rows).Some? ==>
      var prefs := Read(o, cat, rows).value;
      && prefs.Keys == cat.Keys
      && forall k :: k in cat ==> if k in rows then Says(o, cat[k].kind, rows[k], prefs[k]) else prefs[k] == cat[k].initial
  {
    hide Parse, Says, SettingOk;
    forall k | k in cat && k in rows
      ensures Parse(o, cat[k].kind, rows[k]).Some? ==> Says(o, cat[k].kind, rows[k], Parse(o, cat[k].kind, rows[k]).value)
      ensures Parse(o, cat[k].kind, rows[k]).Some? <==> exists v :: Says(o, cat[k].kind, rows[k], v)
    {
      assert SettingOk(o, cat[k]);
      SettingSays(o, cat[k], rows[k]);
    }
  }

  // ----- the repository -----

  datatype PreferencesError = InvalidValue(key: string)

  class PreferencesRepository {
    const o: Outside
    const cat: map<string, Setting>
    var cache: Prefs
    var rows: Table

    /** Cache and table agree: opening the table again gives exactly the cache. */
    ghost predicate Agree()
      reads this
    {
      Read(o, cat, rows) == Some(cache)
    }

    /** All cached values are such that their prints give them back. */
    ghost predicate Valid()
      reads this
    {
      && PrinterOk(o) && CatalogueOk(o, cat) && cache.Keys == cat.Keys
      && forall k :: k in cat ==> Canonical(o, cat[k].kind, cache[k])
    }

    constructor (o: Outside, cat: map<string, Setting>, cache: Prefs, rows: Table)
      ensures this.o == o && this.cat == cat && this.cache == cache && this.rows == rows
    {
      this.o, this.cat, this.cache, this.rows := o, cat, cache, rows;
    }

    /** Opening: a new table is filled with the defaults first. On a machine whose default export
        path is not acceptable a new table cannot be opened. */
    static method Open(o: Outside, cat: map<string, Setting>, stored: Option<Table>) returns (r: Option<PreferencesRepository>)
      requires PrinterOk(o) && CatalogueOk(o, cat)
      ensures r.Some? <==> if stored.Some? then Read(o, cat, stored.value).Some? else ExportPathsReadable(o, cat)
      ensures r.Some? ==> fresh(r.value) && r.value.o == o && r.value.cat == cat && r.value.Agree()
      ensures r.Some? && stored.Some? ==>
        && r.value.rows == stored.value && r.value.cache.Keys == cat.Keys
        && forall k :: k in cat ==>
             if k in stored.value then Says(o, cat[k].kind, stored.value[k], r.value.cache[k]) else r.value.cache[k] == cat[k].initial
      ensures r.Some? && stored.None? ==> (r.value.cache == Defaults(cat) <==> ExportPathsOk(o, cat))
      ensures r.Some? && ExportPathsOk(o, cat) ==> r.value.Valid()
    {
      hide Parse, Print, DefaultPathOk, DefaultPathReadable, Canonical, SettingOk, Says, CatalogueOk;
      if stored.Some? { ReadSays(o, cat, stored.value); }
      var rows := if stored.Some? then stored.value else Written(o, map[], Defaults(cat));
      var read := ReadAll(o, cat, rows);
      FreshOpens(o, cat);
      if read.None? { return None; }
      if ExportPathsOk(o, cat) { ReadCanonical(o, cat, rows); }
      var repository := new PreferencesRepository(o, cat, read.value, rows);
      r := Some(repository);
    }

    /** A rejected value changes nothing. Otherwise the cache changes in that key alone, and the
        table is rewritten from it; afterwards the two agree, unless the key is the export path,
        the value is blank and the machine's default is not acceptable. */
    method Set(key: string, value: string) returns (r: Result<Prefs, PreferencesError>)
      requires Valid()
      modifies this
      ensures match ApplyValue(o, cat, old(cache), key, value)
        case None => r == Failure(InvalidValue(key)) && cache == old(cache) && rows == old(rows)
        case Some(prefs) => r == Success(prefs) && cache == prefs && rows == Written(o, old(rows), prefs)
      ensures r.Success? ==> (Valid() <==> (key in cat && cat[key].kind.ExportPath? && Trim(value) == "" ==> DefaultPathOk(o, cat[key].kind.limit)))
      ensures r.Success? ==> (Valid() <==> Agree())
      ensures r.Success? <==> (key in cat ==> exists v :: Says(o, cat[key].kind, value, v))
      ensures r.Success? ==>
        && cache.Keys == cat.Keys && (key in cat ==> Says(o, cat[key].kind, value, cache[key]))
        && (forall k :: k in cat && k != key ==> cache[k] == old(cache)[k])
        && rows.Keys == old(rows).Keys + cat.Keys && (forall k :: k in cat ==> rows[k] == Print(o, cache[k]))
        && (forall k :: k in old(rows) && k !in cat ==> rows[k] == old(rows)[k])
    {
      hide Parse, Print, DefaultPathOk, Says, ApplyValue, CatalogueOk, Canonical, Written, Read;
      SetSays(o, cat, cache, key, value);
      var prefs := cache;
      var applied := ApplyValue(o, cat, prefs, key, value);
      if applied.None? { return Failure(InvalidValue(key)); }
      prefs := applied.value;
      SetCanonical(o, cat, cache, key, value);
      Persist(prefs);
      WrittenReads(o, cat, old(rows), prefs);
      WrittenRows(o, old(rows), prefs);
      r := Success(prefs);
    }

    method Persist(prefs: Prefs)
      modifies this
      ensures cache == prefs && rows == Written(o, old(rows), prefs)
    {
      hide Print;
      var todo, written := prefs.Keys, rows;
      while todo != {}
        invariant todo <= prefs.Keys && rows == old(rows) && cache == old(cache)
        invariant written == rows + map k | k in prefs && k !in todo :: Print(o, prefs[k])
        decreases todo
      {
        var k :| k in todo;
        written := written[k := Print(o, prefs[k])];
        todo := todo - {k};
      }
      assert written == Written(o, rows, prefs);
      rows := written;
      cache := prefs;
    }
  }

  lemma FreshOpens(o: Outside, cat: map<string, Setting>)
    requires PrinterOk(o) && CatalogueOk(o, cat)
    ensures Read(o, cat, Written(o, map[], Defaults(cat))).Some? <==> ExportPathsReadable(o, cat)
    ensures Read(o, cat, Written(o, map[], Defaults(cat))) == Some(Defaults(cat)) <==> ExportPathsOk(o, cat)
  {
    hide Parse, Print, DefaultPathOk, DefaultPathReadable, SettingOk, Canonical;
    var written := Written(o, map[], Defaults(cat));
    WrittenReads(o, cat, map[], Defaults(cat));
    forall k | k in cat
      ensures Parse(o, cat[k].kind, written[k]).Some? <==> (cat[k].kind.ExportPath? ==> DefaultPathReadable(o, cat[k].kind.limit))
      ensures Canonical(o, cat[k].kind, cat[k].initial) <==> (cat[k].kind.ExportPath? ==> DefaultPathOk(o, cat[k].kind.limit))
    {
      assert written[k] == Print(o, cat[k].initial);
      DefaultCanonical(o, cat[k]);
    }
  }

  lemma ReadCanonical(o: Outside, cat: map<string, Setting>, rows: Table)
    requires PrinterOk(o) && CatalogueOk(o, cat) && Read(o, cat, rows).Some? && ExportPathsOk(o, cat)
    ensures forall k :: k in cat ==> Canonical(o, cat[k].kind, Read(o, cat, rows).value[k])
  {
    hide Parse, Print, DefaultPathOk, Canonical;
    forall k | k in cat ensures Canonical(o, cat[k].kind, Read(o, cat, rows).value[k]) {
      assert SettingOk(o, cat[k]);
      if k in rows { NormalisedStays(o, cat[k].kind, rows[k]); } else { DefaultCanonical(o, cat[k]); }
    }
  }

  /** After any sequence of calls on a new table, opening it again succeeds and gives exactly the
      cached values; rejected calls change nothing. */
  method AnySequence(o: Outside, calls: seq<(string, string)>) returns (repository: PreferencesRepository, reopened: PreferencesRepository)
    requires PrinterOk(o) && DefaultPathOk(o, EXPORT_LIMIT)
    ensures repository.cat == Catalogue(o) && repository.Valid() && repository.Agree()
    ensures reopened.cache == repository.cache && reopened.Valid()
  {
    hide DefaultPathOk, Catalogue, SettingOk;
    var cat := Catalogue(o);
    OurCatalogueOk(o);
    OurExportPath(o);
    var first := PreferencesRepository.Open(o, cat, None);
    repository := first.value;
    for i := 0 to |calls|
      invariant repository.o == o && repository.cat == cat && repository.Valid() && repository.Agree()
    {
      var r := repository.Set(calls[i].0, calls[i].1);
    }
    var again := PreferencesRepository.Open(o, cat, Some(repository.rows));
    reopened := again.value;
  }

  lemma OurExportPath(o: Outside)
    requires DefaultPathOk(o, EXPORT_LIMIT) && CatalogueOk(o, Catalogue(o))
    ensures ExportPathsOk(o, Catalogue(o)) && ExportPathsReadable(o, Catalogue(o))
  {
    hide Catalogue, Trim, Trimmed, Bytes;
    forall k | k in Catalogue(o) && Catalogue(o)[k].kind.ExportPath? ensures Catalogue(o)[k].kind.limit == EXPORT_LIMIT {
      assert SettingOk(o, Catalogue(o)[k]);
    }
  }
}
