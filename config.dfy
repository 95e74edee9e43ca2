/** The configuration store: a key-value record kept by a persistence library, whose schema
    constrains the values, fills in defaults, and rejects a write that would break it. */
module Config {
  import opened Wrappers

  /** A stored JSON value (numbers are integers in this model). */
  datatype Value = Str(s: string) | Num(n: int) | Bool(b: bool)

  type Store = map<string, Value>

  /** The automation modes of the watch loop. */
  datatype Mode = Manual | Confirm | Auto

  const Modes: seq<string> := ["manual", "confirm", "auto"]
  const Providers: seq<string> := ["gemini", "openai", "ollama", "anthropic", "none"]

  function ModeName(m: Mode): string {
    match m
    case Manual => "manual"
    case Confirm => "confirm"
    case Auto => "auto"
  }

  /** The mode a stored name denotes, if it is one of the three. */
  function ModeOf(name: string): (r: Option<Mode>)
    ensures r.Some? <==> name in Modes
    ensures r.Some? ==> ModeName(r.value) == name
  {
    if name == "manual" then Some(Manual)
    else if name == "confirm" then Some(Confirm)
    else if name == "auto" then Some(Auto)
    else None
  }

  /** The defaults the schema fills in. */
  function Defaults(): Store {
    map[
      "autoMode" := Str("auto"),
      "commitThreshold" := Num(20),
      "aiProvider" := Str("gemini"),
      "aiModel" := Str("gemini-2.0-flash-exp"),
      "defaultBranch" := Str("main"),
      "pushOnCommit" := Bool(false),
      "aiCommitMessages" := Bool(true),
      "aiCommitMaxChars" := Num(72),
      "aiCommitStyle" := Str("conventional"),
      "commitsBeforeSummary" := Num(3),
      "autoSummaryAndPush" := Bool(true)
    ]
  }

  /** The constraint the schema puts on one known key's value; unknown keys are unconstrained. */
  predicate ValueFits(key: string, v: Value) {
    if key == "autoMode" then v.Str? && v.s in Modes
    else if key == "commitThreshold" then v.Num? && v.n >= 1
    else if key == "aiProvider" then v.Str? && v.s in Providers
    else if key in {"aiModel", "defaultBranch", "aiCommitStyle"} then v.Str?
    else if key in {"pushOnCommit", "aiCommitMessages", "autoSummaryAndPush"} then v.Bool?
    else if key == "aiCommitMaxChars" then v.Num?
    else if key == "commitsBeforeSummary" then v.Num? && 2 <= v.n <= 10
    else true
  }

  /** Every stored value satisfies the schema (absent keys take their defaults). */
  predicate Conforms(store: Store) {
    forall key :: key in store ==> ValueFits(key, store[key])
  }

  /** The fields the watch loop reads on every tick. */
  datatype Settings = Settings(
    autoMode: Mode,
    commitThreshold: int,
    aiProvider: string,
    aiCommitMessages: bool,
    commitsBeforeSummary: int,
    autoSummaryAndPush: bool,
    pushOnCommit: bool)

  /** The value stored under `key`, or its default. */
  function Lookup(store: Store, key: string): Option<Value> {
    if key in store then Some(store[key])
    else if key in Defaults() then Some(Defaults()[key])
    else None
  }

  /** The typed view of a conforming store: stored values where present, defaults elsewhere. */
  function SettingsOf(store: Store): (s: Settings)
    requires Conforms(store)
    ensures s.commitThreshold >= 1
    ensures 2 <= s.commitsBeforeSummary <= 10
    ensures s.aiProvider in Providers
  {
    DefaultsConform();
    var mode := Lookup(store, "autoMode").value.s;
    Settings(
      ModeOf(mode).value,
      Lookup(store, "commitThreshold").value.n,
      Lookup(store, "aiProvider").value.s,
      Lookup(store, "aiCommitMessages").value.b,
      Lookup(store, "commitsBeforeSummary").value.n,
      Lookup(store, "autoSummaryAndPush").value.b,
      Lookup(store, "pushOnCommit").value.b)
  }

  /** The defaults satisfy the schema, and the typed view of them is auto mode, a threshold of 20
      lines, the gemini provider with AI messages on, a summary every 3 commits with auto summary
      and push on, and push-on-commit off. */
  lemma DefaultSettings()
    ensures Conforms(Defaults())
    ensures SettingsOf(Defaults()) == Settings(Auto, 20, "gemini", true, 3, true, false)
  {
    DefaultsConform();
    var d := Defaults();
    assert d["autoMode"] == Str("auto") && d["commitThreshold"] == Num(20) && d["aiProvider"] == Str("gemini");
    assert d["aiCommitMessages"] == Bool(true) && d["commitsBeforeSummary"] == Num(3);
    assert d["autoSummaryAndPush"] == Bool(true) && d["pushOnCommit"] == Bool(false);
  }

  /** Each default fits its key's schema entry. */
  lemma DefaultsConform()
    ensures Conforms(Defaults())
  {
    var d := Defaults();
    forall key | key in d
      ensures ValueFits(key, d[key])
    {
      assert "auto" == Modes[2] && "gemini" == Providers[0];
    }
  }

  /** Writing a value the schema accepts keeps a conforming store conforming; writing one it
      rejects would break it. */
  lemma {:induction false} WriteConforms(store: Store, key: string, v: Value)
    requires Conforms(store)
    ensures Conforms(store[key := v]) <==> ValueFits(key, v)
  {
    if Conforms(store[key := v]) {
      assert key in store[key := v];
    }
  }

  /** The configuration object: its store is updated in place by `Set` and `Reset`. */
  class ConfigStore {
    var store: Store

    /** The library keeps its store conforming: it refuses any write that would break it. */
    ghost predicate Valid()
      reads this
    {
      Conforms(store)
    }

    /** A fresh store holds the defaults. */
    constructor ()
      ensures Valid() && store == Defaults()
    {
      store := Defaults();
      DefaultSettings();
    }

    /** `config.get(key)`: the stored value or the schema default. */
    function Get(key: string): (r: Option<Value>)
      reads this
      requires Valid()
      ensures key in store ==> r == Some(store[key])
      ensures r.Some? ==> ValueFits(key, r.value)
    {
      DefaultSettings();
      assert key in Defaults() ==> ValueFits(key, Defaults()[key]);
      Lookup(store, key)
    }

    /** `config.getAll()` as the typed record the watch loop reads. */
    function GetAll(): Settings
      reads this
      requires Valid()
    {
      SettingsOf(store)
    }

    /** `config.set(key, value)`: the library validates the write against the schema and throws
        instead of storing a value that does not fit. */
    method Set(key: string, v: Value) returns (r: Result<()>)
      requires Valid()
      modifies this
      ensures Valid()
      ensures r.Success? <==> ValueFits(key, v)
      ensures r.Success? ==> store == old(store)[key := v]
      ensures r.Failure? ==> store == old(store)
    {
      WriteConforms(store, key, v);
      if ValueFits(key, v) {
        store := store[key := v];
        r := Success(());
      } else {
        r := Failure("Config schema violation: `" + key + "` does not match the schema");
      }
    }

    /** `validate()`: success exactly when the stored record satisfies the schema. */
    method Validate() returns (ok: bool)
      ensures ok <==> Conforms(store)
    {
      ok := forall key | key in store :: ValueFits(key, store[key]);
    }

    /** `reset()`: the store goes back to the defaults. */
    method Reset()
      modifies this
      ensures Valid() && store == Defaults()
      ensures GetAll() == Settings(Auto, 20, "gemini", true, 3, true, false)
    {
      store := Defaults();
      DefaultSettings();
    }
  }
}
