/**
 * Interface text in two languages: the nested translation tables, the
 * dotted-key lookup `t`, and the language choice with its storage slot.
 */
module Language {
  import opened Optional
  import opened Text

  /**
   * What a lookup can reach: nothing, a string, a nested table (an object
   * literal: its own keys in order), or one of the functions every object
   * inherits, named by its property name.
   */
  datatype Value =
    | Undefined
    | Str(s: string)
    | Table(entries: seq<(string, Value)>)
    | Native(name: string)

  /** The values JavaScript treats as false: `undefined` and the empty string. */
  predicate Falsy(v: Value) {
    v == Undefined || v == Str([])
  }

  /** An own property of a table; for a literal with a repeated key the last one wins. */
  function Get(es: seq<(string, Value)>, k: string): (r: Option<Value>)
    ensures r.None? <==> forall i :: 0 <= i < |es| ==> es[i].0 != k
    ensures r.Some? ==> exists i :: 0 <= i < |es| && es[i] == (k, r.value)
  {
    GetBelow(es, k, |es|)
  }

  /** The last of the first `n` entries with key `k`. */
  function GetBelow(es: seq<(string, Value)>, k: string, n: nat): (r: Option<Value>)
    requires n <= |es|
    ensures r.None? <==> forall i :: 0 <= i < n ==> es[i].0 != k
    ensures r.Some? ==> exists i :: 0 <= i < n && es[i] == (k, r.value)
  {
    if n == 0 then None
    else if es[n - 1].0 == k then Some(es[n - 1].1)
    else GetBelow(es, k, n - 1)
  }

  /**
   * One step of the walk: only a table can be entered, and only through a
   * key it holds itself.
   */
  function Step(v: Value, k: string): (r: Option<Value>)
    ensures r.Some? <==> v.Table? && exists i :: 0 <= i < |v.entries| && v.entries[i].0 == k
  {
    if v.Table? then Get(v.entries, k) else None
  }

  /** Walks the key segments from `v`; None as soon as one step fails. */
  function Walk(v: Value, keys: seq<string>): Option<Value>
    decreases |keys|
  {
    if keys == [] then Some(v)
    else
      match Step(v, keys[0])
      case None => None
      case Some(w) => Walk(w, keys[1..])
  }

  /** The table of a language; a language without one has nothing. */
  function Root(language: string): Value {
    if language == "zh" then ZH
    else if language == "en" then EN
    else Undefined
  }

  /**
   * `t(key)`: split the key on dots and walk the language's table; a failed
   * step or a falsy end gives back the key itself. The walk may end on a
   * nested table, which is then the result.
   */
  function Lookup(language: string, key: string): (r: Value)
    ensures Resolves(language, key) ==> r == Walk(Root(language), Split(key, '.')).value
    ensures !Resolves(language, key) ==> r == Str(key)
    ensures r == Str(key) || (Walk(Root(language), Split(key, '.')) == Some(r) && !Falsy(r))
  {
    var w := Walk(Root(language), Split(key, '.'));
    if w.None? || Falsy(w.value) then Str(key) else w.value
  }

  /** A key resolves when the walk succeeds and ends on something truthy. */
  predicate Resolves(language: string, key: string) {
    var w := Walk(Root(language), Split(key, '.'));
    w.Some? && !Falsy(w.value)
  }

  /** A language without a table translates every key to itself. */
  lemma UnknownLanguageEchoes(language: string, key: string)
    requires language != "zh" && language != "en"
    ensures Lookup(language, key) == Str(key)
  {
    var keys := Split(key, '.');
    assert Step(Undefined, keys[0]).None?;
  }

  // ---------------------------------------------------------------------
  // The two tables have the same shape: the same keys in the same order at
  // every level, and strings exactly where the other has strings.
  // ---------------------------------------------------------------------

  predicate SameShape(a: Value, b: Value)
    decreases a, 1, 0
  {
    match a
    case Table(ea) => b.Table? && |ea| == |b.entries| && SameEntriesFrom(a, b, 0)
    case Str(s) => b.Str? && (s == [] <==> b.s == [])
    case Undefined => b.Undefined?
    case Native(n) => b == Native(n)
  }

  /** The entries of two tables agree in key and shape from index `i` on. */
  predicate SameEntriesFrom(a: Value, b: Value, i: nat)
    requires a.Table? && b.Table? && |a.entries| == |b.entries| && i <= |a.entries|
    decreases a, 0, |a.entries| - i
  {
    i == |a.entries| ||
      (assert a.entries[i] in a.entries;
       && a.entries[i].0 == b.entries[i].0
       && SameShape(a.entries[i].1, b.entries[i].1)
       && SameEntriesFrom(a, b, i + 1))
  }

  lemma {:induction false} SameEntriesAt(a: Value, b: Value, i: nat, j: nat)
    requires a.Table? && b.Table? && |a.entries| == |b.entries| && i <= j < |a.entries|
    requires SameEntriesFrom(a, b, i)
    ensures a.entries[j].0 == b.entries[j].0 && SameShape(a.entries[j].1, b.entries[j].1)
    decreases j - i
  {
    if i < j {
      SameEntriesAt(a, b, i + 1, j);
    }
  }

  /** Tables of the same shape find the same key, at values of the same shape. */
  lemma {:induction false} GetSameShape(es: seq<(string, Value)>, fs: seq<(string, Value)>, k: string, n: nat)
    requires n <= |es| == |fs|
    requires forall j :: 0 <= j < |es| ==> es[j].0 == fs[j].0 && SameShape(es[j].1, fs[j].1)
    ensures GetBelow(es, k, n).Some? <==> GetBelow(fs, k, n).Some?
    ensures GetBelow(es, k, n).Some? ==> SameShape(GetBelow(es, k, n).value, GetBelow(fs, k, n).value)
  {
    if n > 0 && es[n - 1].0 != k {
      GetSameShape(es, fs, k, n - 1);
    }
  }

  lemma StepSameShape(a: Value, b: Value, k: string)
    requires SameShape(a, b)
    ensures Step(a, k).Some? <==> Step(b, k).Some?
    ensures Step(a, k).Some? ==> SameShape(Step(a, k).value, Step(b, k).value)
  {
    if a.Table? {
      forall j | 0 <= j < |a.entries|
        ensures a.entries[j].0 == b.entries[j].0 && SameShape(a.entries[j].1, b.entries[j].1)
      {
        SameEntriesAt(a, b, 0, j);
      }
      GetSameShape(a.entries, b.entries, k, |a.entries|);
    }
  }

  /** Walks in tables of the same shape succeed together and end on values of the same shape. */
  lemma {:induction false} WalkSameShape(a: Value, b: Value, keys: seq<string>)
    requires SameShape(a, b)
    ensures Walk(a, keys).Some? <==> Walk(b, keys).Some?
    ensures Walk(a, keys).Some? ==> SameShape(Walk(a, keys).value, Walk(b, keys).value)
    decreases |keys|
  {
    if keys != [] {
      StepSameShape(a, b, keys[0]);
      if Step(a, keys[0]).Some? {
        WalkSameShape(Step(a, keys[0]).value, Step(b, keys[0]).value, keys[1..]);
      }
    }
  }

  lemma SameShapeFalsy(a: Value, b: Value)
    requires SameShape(a, b)
    ensures Falsy(a) <==> Falsy(b)
    ensures a.Table? <==> b.Table?
  {
  }

  // The lemmas from here to TablesSameShape compare the two tables one
  // nested table at a time, and each table from its last entry back to its
  // first (`...From<i>` covers entries i onwards), so that every proof step
  // unfolds one entry of two small constants. They state nothing beyond
  // TablesSameShape and serve only to prove it.

  lemma LandingFeaturesCollaborationFrom1()
    ensures SameEntriesFrom(ZhLandingFeaturesCollaboration, EnLandingFeaturesCollaboration, 1)
  {
  }

  lemma LandingFeaturesCollaborationSameShape()
    ensures SameShape(ZhLandingFeaturesCollaboration, EnLandingFeaturesCollaboration)
  {
    LandingFeaturesCollaborationFrom1();
  }

  lemma LandingFeaturesCrossPlatformFrom1()
    ensures SameEntriesFrom(ZhLandingFeaturesCrossPlatform, EnLandingFeaturesCrossPlatform, 1)
  {
  }

  lemma LandingFeaturesCrossPlatformSameShape()
    ensures SameShape(ZhLandingFeaturesCrossPlatform, EnLandingFeaturesCrossPlatform)
  {
    LandingFeaturesCrossPlatformFrom1();
  }

  lemma LandingFeaturesEasyToUseFrom1()
    ensures SameEntriesFrom(ZhLandingFeaturesEasyToUse, EnLandingFeaturesEasyToUse, 1)
  {
  }

  lemma LandingFeaturesEasyToUseSameShape()
    ensures SameShape(ZhLandingFeaturesEasyToUse, EnLandingFeaturesEasyToUse)
  {
    LandingFeaturesEasyToUseFrom1();
  }

  lemma LandingFeaturesRealTimeSyncFrom1()
    ensures SameEntriesFrom(ZhLandingFeaturesRealTimeSync, EnLandingFeaturesRealTimeSync, 1)
  {
  }

  lemma LandingFeaturesRealTimeSyncSameShape()
    ensures SameShape(ZhLandingFeaturesRealTimeSync, EnLandingFeaturesRealTimeSync)
  {
    LandingFeaturesRealTimeSyncFrom1();
  }

  lemma LandingFeaturesSecureFrom1()
    ensures SameEntriesFrom(ZhLandingFeaturesSecure, EnLandingFeaturesSecure, 1)
  {
  }

  lemma LandingFeaturesSecureSameShape()
    ensures SameShape(ZhLandingFeaturesSecure, EnLandingFeaturesSecure)
  {
    LandingFeaturesSecureFrom1();
  }

  lemma LandingFeaturesSmartReminderFrom1()
    ensures SameEntriesFrom(ZhLandingFeaturesSmartReminder, EnLandingFeaturesSmartReminder, 1)
  {
  }

  lemma LandingFeaturesSmartReminderSameShape()
    ensures SameShape(ZhLandingFeaturesSmartReminder, EnLandingFeaturesSmartReminder)
  {
    LandingFeaturesSmartReminderFrom1();
  }

  lemma LandingFeaturesFrom5()
    ensures SameEntriesFrom(ZhLandingFeatures, EnLandingFeatures, 5)
  {
    LandingFeaturesCrossPlatformSameShape();
  }

  lemma LandingFeaturesFrom4()
    ensures SameEntriesFrom(ZhLandingFeatures, EnLandingFeatures, 4)
  {
    LandingFeaturesFrom5();
    LandingFeaturesCollaborationSameShape();
  }

  lemma LandingFeaturesFrom3()
    ensures SameEntriesFrom(ZhLandingFeatures, EnLandingFeatures, 3)
  {
    LandingFeaturesFrom4();
    LandingFeaturesSmartReminderSameShape();
  }

  lemma LandingFeaturesFrom2()
    ensures SameEntriesFrom(ZhLandingFeatures, EnLandingFeatures, 2)
  {
    LandingFeaturesFrom3();
    LandingFeaturesSecureSameShape();
  }

  lemma LandingFeaturesFrom1()
    ensures SameEntriesFrom(ZhLandingFeatures, EnLandingFeatures, 1)
  {
    LandingFeaturesFrom2();
    LandingFeaturesRealTimeSyncSameShape();
  }

  lemma LandingFeaturesSameShape()
    ensures SameShape(ZhLandingFeatures, EnLandingFeatures)
  {
    LandingFeaturesFrom1();
    LandingFeaturesEasyToUseSameShape();
  }

  lemma TodoStatsFrom3()
    ensures SameEntriesFrom(ZhTodoStats, EnTodoStats, 3)
  {
  }

  lemma TodoStatsFrom2()
    ensures SameEntriesFrom(ZhTodoStats, EnTodoStats, 2)
  {
    TodoStatsFrom3();
  }

  lemma TodoStatsFrom1()
    ensures SameEntriesFrom(ZhTodoStats, EnTodoStats, 1)
  {
    TodoStatsFrom2();
  }

  lemma TodoStatsSameShape()
    ensures SameShape(ZhTodoStats, EnTodoStats)
  {
    TodoStatsFrom1();
  }

  lemma AuthFrom14()
    ensures SameEntriesFrom(ZhAuth, EnAuth, 14)
  {
  }

  lemma AuthFrom13()
    ensures SameEntriesFrom(ZhAuth, EnAuth, 13)
  {
    AuthFrom14();
  }

  lemma AuthFrom12()
    ensures SameEntriesFrom(ZhAuth, EnAuth, 12)
  {
    AuthFrom13();
  }

  lemma AuthFrom11()
    ensures SameEntriesFrom(ZhAuth, EnAuth, 11)
  {
    AuthFrom12();
  }

  lemma AuthFrom10()
    ensures SameEntriesFrom(ZhAuth, EnAuth, 10)
  {
    AuthFrom11();
  }

  lemma AuthFrom9()
    ensures SameEntriesFrom(ZhAuth, EnAuth, 9)
  {
    AuthFrom10();
  }

  lemma AuthFrom8()
    ensures SameEntriesFrom(ZhAuth, EnAuth, 8)
  {
    AuthFrom9();
  }

  lemma AuthFrom7()
    ensures SameEntriesFrom(ZhAuth, EnAuth, 7)
  {
    AuthFrom8();
  }

  lemma AuthFrom6()
    ensures SameEntriesFrom(ZhAuth, EnAuth, 6)
  {
    AuthFrom7();
  }

  lemma AuthFrom5()
    ensures SameEntriesFrom(ZhAuth, EnAuth, 5)
  {
    AuthFrom6();
  }

  lemma AuthFrom4()
    ensures SameEntriesFrom(ZhAuth, EnAuth, 4)
  {
    AuthFrom5();
  }

  lemma AuthFrom3()
    ensures SameEntriesFrom(ZhAuth, EnAuth, 3)
  {
    AuthFrom4();
  }

  lemma AuthFrom2()
    ensures SameEntriesFrom(ZhAuth, EnAuth, 2)
  {
    AuthFrom3();
  }

  lemma AuthFrom1()
    ensures SameEntriesFrom(ZhAuth, EnAuth, 1)
  {
    AuthFrom2();
  }

  lemma AuthSameShape()
    ensures SameShape(ZhAuth, EnAuth)
  {
    AuthFrom1();
  }

  lemma LandingFrom6()
    ensures SameEntriesFrom(ZhLanding, EnLanding, 6)
  {
    LandingFeaturesSameShape();
  }

  lemma LandingFrom5()
    ensures SameEntriesFrom(ZhLanding, EnLanding, 5)
  {
    LandingFrom6();
  }

  lemma LandingFrom4()
    ensures SameEntriesFrom(ZhLanding, EnLanding, 4)
  {
    LandingFrom5();
  }

  lemma LandingFrom3()
    ensures SameEntriesFrom(ZhLanding, EnLanding, 3)
  {
    LandingFrom4();
  }

  lemma LandingFrom2()
    ensures SameEntriesFrom(ZhLanding, EnLanding, 2)
  {
    LandingFrom3();
  }

  lemma LandingFrom1()
    ensures SameEntriesFrom(ZhLanding, EnLanding, 1)
  {
    LandingFrom2();
  }

  lemma LandingSameShape()
    ensures SameShape(ZhLanding, EnLanding)
  {
    LandingFrom1();
  }

  lemma PriorityFrom4()
    ensures SameEntriesFrom(ZhPriority, EnPriority, 4)
  {
  }

  lemma PriorityFrom3()
    ensures SameEntriesFrom(ZhPriority, EnPriority, 3)
  {
    PriorityFrom4();
  }

  lemma PriorityFrom2()
    ensures SameEntriesFrom(ZhPriority, EnPriority, 2)
  {
    PriorityFrom3();
  }

  lemma PriorityFrom1()
    ensures SameEntriesFrom(ZhPriority, EnPriority, 1)
  {
    PriorityFrom2();
  }

  lemma PrioritySameShape()
    ensures SameShape(ZhPriority, EnPriority)
  {
    PriorityFrom1();
  }

  lemma ThemeFrom3()
    ensures SameEntriesFrom(ZhTheme, EnTheme, 3)
  {
  }

  lemma ThemeFrom2()
    ensures SameEntriesFrom(ZhTheme, EnTheme, 2)
  {
    ThemeFrom3();
  }

  lemma ThemeFrom1()
    ensures SameEntriesFrom(ZhTheme, EnTheme, 1)
  {
    ThemeFrom2();
  }

  lemma ThemeSameShape()
    ensures SameShape(ZhTheme, EnTheme)
  {
    ThemeFrom1();
  }

  lemma TodoFrom14()
    ensures SameEntriesFrom(ZhTodo, EnTodo, 14)
  {
    TodoStatsSameShape();
  }

  lemma TodoFrom13()
    ensures SameEntriesFrom(ZhTodo, EnTodo, 13)
  {
    TodoFrom14();
  }

  lemma TodoFrom12()
    ensures SameEntriesFrom(ZhTodo, EnTodo, 12)
  {
    TodoFrom13();
  }

  lemma TodoFrom11()
    ensures SameEntriesFrom(ZhTodo, EnTodo, 11)
  {
    TodoFrom12();
  }

  lemma TodoFrom10()
    ensures SameEntriesFrom(ZhTodo, EnTodo, 10)
  {
    TodoFrom11();
  }

  lemma TodoFrom9()
    ensures SameEntriesFrom(ZhTodo, EnTodo, 9)
  {
    TodoFrom10();
  }

  lemma TodoFrom8()
    ensures SameEntriesFrom(ZhTodo, EnTodo, 8)
  {
    TodoFrom9();
  }

  lemma TodoFrom7()
    ensures SameEntriesFrom(ZhTodo, EnTodo, 7)
  {
    TodoFrom8();
  }

  lemma TodoFrom6()
    ensures SameEntriesFrom(ZhTodo, EnTodo, 6)
  {
    TodoFrom7();
  }

  lemma TodoFrom5()
    ensures SameEntriesFrom(ZhTodo, EnTodo, 5)
  {
    TodoFrom6();
  }

  lemma TodoFrom4()
    ensures SameEntriesFrom(ZhTodo, EnTodo, 4)
  {
    TodoFrom5();
  }

  lemma TodoFrom3()
    ensures SameEntriesFrom(ZhTodo, EnTodo, 3)
  {
    TodoFrom4();
  }

  lemma TodoFrom2()
    ensures SameEntriesFrom(ZhTodo, EnTodo, 2)
  {
    TodoFrom3();
  }

  lemma TodoFrom1()
    ensures SameEntriesFrom(ZhTodo, EnTodo, 1)
  {
    TodoFrom2();
  }

  lemma TodoSameShape()
    ensures SameShape(ZhTodo, EnTodo)
  {
    TodoFrom1();
  }

  lemma TablesFrom12()
    ensures SameEntriesFrom(ZH, EN, 12)
  {
    ThemeSameShape();
  }

  lemma TablesFrom11()
    ensures SameEntriesFrom(ZH, EN, 11)
  {
    TablesFrom12();
    PrioritySameShape();
  }

  lemma TablesFrom10()
    ensures SameEntriesFrom(ZH, EN, 10)
  {
    TablesFrom11();
    TodoSameShape();
  }

  lemma TablesFrom9()
    ensures SameEntriesFrom(ZH, EN, 9)
  {
    TablesFrom10();
    AuthSameShape();
  }

  lemma TablesFrom8()
    ensures SameEntriesFrom(ZH, EN, 8)
  {
    TablesFrom9();
    LandingSameShape();
  }

  lemma TablesFrom7()
    ensures SameEntriesFrom(ZH, EN, 7)
  {
    TablesFrom8();
  }

  lemma TablesFrom6()
    ensures SameEntriesFrom(ZH, EN, 6)
  {
    TablesFrom7();
  }

  lemma TablesFrom5()
    ensures SameEntriesFrom(ZH, EN, 5)
  {
    TablesFrom6();
  }

  lemma TablesFrom4()
    ensures SameEntriesFrom(ZH, EN, 4)
  {
    TablesFrom5();
  }

  lemma TablesFrom3()
    ensures SameEntriesFrom(ZH, EN, 3)
  {
    TablesFrom4();
  }

  lemma TablesFrom2()
    ensures SameEntriesFrom(ZH, EN, 2)
  {
    TablesFrom3();
  }

  lemma TablesFrom1()
    ensures SameEntriesFrom(ZH, EN, 1)
  {
    TablesFrom2();
  }

  /** The two tables agree in shape. */
  lemma TablesSameShape()
    ensures SameShape(ZH, EN)
  {
    TablesFrom1();
  }

  /**
   * The two languages define the same keys: a key resolves in Chinese
   * exactly when it resolves in English, and to a nested table in one
   * exactly when it does in the other.
   */
  lemma ResolvesInBothOrNeither(key: string)
    ensures Resolves("zh", key) <==> Resolves("en", key)
    ensures Lookup("zh", key).Table? <==> Lookup("en", key).Table?
  {
    TablesSameShape();
    var keys := Split(key, '.');
    WalkSameShape(ZH, EN, keys);
    if Walk(ZH, keys).Some? {
      SameShapeFalsy(Walk(ZH, keys).value, Walk(EN, keys).value);
    }
  }

  /** A key of two dot-free segments splits into those two segments. */
  lemma SplitTwo(p: string, q: string)
    requires '.' !in p && '.' !in q
    ensures Split(p + "." + q, '.') == [p, q]
  {
    SplitBefore(p, q, '.');
    SplitPiece(q, '.');
  }

  /** A key of three dot-free segments splits into those three segments. */
  lemma SplitThree(p: string, q: string, r: string)
    requires '.' !in p && '.' !in q && '.' !in r
    ensures Split(p + "." + q + "." + r, '.') == [p, q, r]
  {
    SplitBefore(p, q + "." + r, '.');
    SplitTwo(q, r);
    assert p + "." + q + "." + r == p + "." + (q + "." + r);
  }

  /** "todo.stats" stops at a nested table, which is what the lookup yields. */
  lemma StatsKeyYieldsTable(language: string)
    requires language == "zh" || language == "en"
    ensures Lookup(language, "todo.stats").Table?
    ensures Lookup(language, "todo.stats") != Str("todo.stats")
  {
    SplitTwo("todo", "stats");
    assert "todo" + "." + "stats" == "todo.stats";
    var root := Root(language);
    if language == "en" {
      EnTodoStep();
      EnStatsStep();
    } else {
      ZhTodoStep();
      ZhStatsStep();
    }
    WalkTwo(root, "todo", "stats");
    LookupYieldsTable(language, "todo.stats");
  }

  lemma WalkTwo(v: Value, k1: string, k2: string)
    requires Step(v, k1).Some? && Step(Step(v, k1).value, k2).Some?
    ensures Walk(v, [k1, k2]) == Step(Step(v, k1).value, k2)
  {
    var w := Step(v, k1).value;
    var u := Step(w, k2).value;
    assert [k2][1..] == [];
    assert Walk(w, [k2]) == Walk(u, []) == Some(u);
    assert [k1, k2][1..] == [k2];
  }

  lemma EnTodoStep()
    ensures Step(Root("en"), "todo") == Some(EnTodo)
  {
    var es := EN.entries;
    assert es[12].0 == "theme" && es[11].0 == "priority" && es[10] == ("todo", EnTodo);
    assert GetBelow(es, "todo", 13) == GetBelow(es, "todo", 12) == GetBelow(es, "todo", 11);
  }

  lemma EnAuthStep()
    ensures Step(Root("en"), "auth") == Some(EnAuth)
  {
    var es := EN.entries;
    assert es[12].0 == "theme" && es[11].0 == "priority" && es[10].0 == "todo" && es[9] == ("auth", EnAuth);
    assert GetBelow(es, "auth", 13) == GetBelow(es, "auth", 12) == GetBelow(es, "auth", 11) == GetBelow(es, "auth", 10);
  }

  lemma ZhAuthStep()
    ensures Step(Root("zh"), "auth") == Some(ZhAuth)
  {
    var es := ZH.entries;
    assert es[12].0 == "theme" && es[11].0 == "priority" && es[10].0 == "todo" && es[9] == ("auth", ZhAuth);
    assert GetBelow(es, "auth", 13) == GetBelow(es, "auth", 12) == GetBelow(es, "auth", 11) == GetBelow(es, "auth", 10);
  }

  /** The two registration messages of each language. */
  lemma AuthMessageSteps()
    ensures Step(EnAuth, "passwordMismatch") == Some(Str("Passwords do not match"))
    ensures Step(EnAuth, "registerError") == Some(Str("Registration failed, please try again"))
    ensures Step(ZhAuth, "passwordMismatch") == Some(Str("密码不匹配"))
    ensures Step(ZhAuth, "registerError") == Some(Str("注册失败，请重试"))
  {
    var en := EnAuth.entries;
    var zh := ZhAuth.entries;
    assert en[14].0 == "passwordMismatch" && en[13] == ("registerError", Str("Registration failed, please try again"));
    assert GetBelow(en, "registerError", 15) == GetBelow(en, "registerError", 14);
    assert zh[14].0 == "passwordMismatch" && zh[13] == ("registerError", Str("注册失败，请重试"));
    assert GetBelow(zh, "registerError", 15) == GetBelow(zh, "registerError", 14);
  }

  lemma EnRegistrationWalks()
    ensures Walk(Root("en"), ["auth", "passwordMismatch"]) == Some(Str("Passwords do not match"))
    ensures Walk(Root("en"), ["auth", "registerError"]) == Some(Str("Registration failed, please try again"))
  {
    AuthMessageSteps();
    EnAuthStep();
    WalkTwo(Root("en"), "auth", "passwordMismatch");
    WalkTwo(Root("en"), "auth", "registerError");
  }

  lemma ZhRegistrationWalks()
    ensures Walk(Root("zh"), ["auth", "passwordMismatch"]) == Some(Str("密码不匹配"))
    ensures Walk(Root("zh"), ["auth", "registerError"]) == Some(Str("注册失败，请重试"))
  {
    AuthMessageSteps();
    ZhAuthStep();
    WalkTwo(Root("zh"), "auth", "passwordMismatch");
    WalkTwo(Root("zh"), "auth", "registerError");
  }

  /** A walk that ends on a non-empty string yields that string. */
  lemma LookupFound(language: string, key: string, text: string)
    requires Walk(Root(language), Split(key, '.')) == Some(Str(text)) && text != []
    ensures Lookup(language, key) == Str(text)
  {
  }

  lemma MismatchKeySplit()
    ensures Split("auth.passwordMismatch", '.') == ["auth", "passwordMismatch"]
  {
    SplitTwo("auth", "passwordMismatch");
    assert "auth" + "." + "passwordMismatch" == "auth.passwordMismatch";
  }

  lemma RegisterErrorKeySplit()
    ensures Split("auth.registerError", '.') == ["auth", "registerError"]
  {
    SplitTwo("auth", "registerError");
    assert "auth" + "." + "registerError" == "auth.registerError";
  }

  /**
   * The two registration refusals translate, in either language, to two
   * different non-empty strings, neither of which is its key.
   */
  lemma RegistrationMessages(language: string)
    requires language == "zh" || language == "en"
    ensures Lookup(language, "auth.passwordMismatch").Str? && Lookup(language, "auth.registerError").Str?
    ensures Lookup(language, "auth.passwordMismatch") != Str("auth.passwordMismatch")
    ensures Lookup(language, "auth.registerError") != Str("auth.registerError")
    ensures Lookup(language, "auth.passwordMismatch") != Lookup(language, "auth.registerError")
  {
    MismatchKeySplit();
    RegisterErrorKeySplit();
    if language == "en" {
      EnRegistrationWalks();
      LookupFound("en", "auth.passwordMismatch", "Passwords do not match");
      LookupFound("en", "auth.registerError", "Registration failed, please try again");
    } else {
      ZhRegistrationWalks();
      LookupFound("zh", "auth.passwordMismatch", "密码不匹配");
      LookupFound("zh", "auth.registerError", "注册失败，请重试");
    }
  }

  lemma EnStatsStep()
    ensures Step(EnTodo, "stats") == Some(EnTodoStats)
    ensures EnTodoStats.Table?
  {
  }

  lemma ZhTodoStep()
    ensures Step(Root("zh"), "todo") == Some(ZhTodo)
  {
    var es := ZH.entries;
    assert es[12].0 == "theme" && es[11].0 == "priority" && es[10] == ("todo", ZhTodo);
    assert GetBelow(es, "todo", 13) == GetBelow(es, "todo", 12) == GetBelow(es, "todo", 11);
  }

  lemma ZhStatsStep()
    ensures Step(ZhTodo, "stats") == Some(ZhTodoStats)
    ensures ZhTodoStats.Table?
  {
  }

  /** A walk that ends on a nested table yields that table, not the key. */
  lemma LookupYieldsTable(language: string, key: string)
    requires Walk(Root(language), Split(key, '.')).Some?
    requires Walk(Root(language), Split(key, '.')).value.Table?
    ensures Lookup(language, key) == Walk(Root(language), Split(key, '.')).value
  {
  }

  /** A walk that ends on a falsy value yields the key. */
  lemma LookupFalsyEchoes(language: string, key: string)
    requires Walk(Root(language), Split(key, '.')).Some?
    requires Falsy(Walk(Root(language), Split(key, '.')).value)
    ensures Lookup(language, key) == Str(key)
  {
  }

  /**
   * Entering a string is a failed step, so a key that continues past a
   * string yields the key.
   */
  lemma {:induction false} WalkStopsAtString(s: string, keys: seq<string>)
    requires keys != []
    ensures Walk(Str(s), keys).None?
  {
  }

  // ---------------------------------------------------------------------
  // The lookup as written tests a segment with the `in` operator, which
  // also sees the properties every object inherits. A segment naming one
  // of them steps into that inherited function, which is truthy, so the
  // key comes back as a function instead of as itself.
  // ---------------------------------------------------------------------

  /** The inherited property names of a plain object other than `__proto__`. */
  predicate Inherited(k: string) {
    k in {"constructor", "toString", "toLocaleString", "valueOf", "hasOwnProperty",
          "isPrototypeOf", "propertyIsEnumerable", "__defineGetter__",
          "__defineSetter__", "__lookupGetter__", "__lookupSetter__"}
  }

  /** One step as written: an own key, else an inherited name of a table. */
  function StepAsWritten(v: Value, k: string): (r: Option<Value>)
    ensures Step(v, k).Some? ==> r == Step(v, k)
    ensures v.Table? && Step(v, k).None? && Inherited(k) ==> r == Some(Native(k))
  {
    if !v.Table? then None
    else if Get(v.entries, k).Some? then Get(v.entries, k)
    else if Inherited(k) then Some(Native(k))
    else None
  }

  function WalkAsWritten(v: Value, keys: seq<string>): Option<Value>
    decreases |keys|
  {
    if keys == [] then Some(v)
    else
      match StepAsWritten(v, keys[0])
      case None => None
      case Some(w) => WalkAsWritten(w, keys[1..])
  }

  /** `t(key)` as written. */
  function LookupAsWritten(language: string, key: string): (r: Value)
    ensures r == Str(key) || (WalkAsWritten(Root(language), Split(key, '.')) == Some(r) && !Falsy(r))
  {
    var w := WalkAsWritten(Root(language), Split(key, '.'));
    if w.None? || Falsy(w.value) then Str(key) else w.value
  }

  /** The two walks agree along any path that never names an inherited property. */
  lemma {:induction false} WalkAgrees(v: Value, keys: seq<string>)
    requires forall i :: 0 <= i < |keys| ==> !Inherited(keys[i])
    ensures WalkAsWritten(v, keys) == Walk(v, keys)
    decreases |keys|
  {
    if keys != [] {
      if Step(v, keys[0]).Some? {
        WalkAgrees(Step(v, keys[0]).value, keys[1..]);
      }
    }
  }

  /** The lookups agree on every key none of whose segments is an inherited name. */
  lemma LookupAgrees(language: string, key: string)
    requires forall i :: 0 <= i < |Split(key, '.')| ==> !Inherited(Split(key, '.')[i])
    ensures LookupAsWritten(language, key) == Lookup(language, key)
  {
    WalkAgrees(Root(language), Split(key, '.'));
  }

  /** A one-segment key naming an inherited property that a table lacks. */
  lemma InheritedSegment(v: Value, k: string)
    requires v.Table? && Step(v, k).None? && Inherited(k)
    ensures WalkAsWritten(v, [k]) == Some(Native(k))
    ensures Walk(v, [k]).None?
  {
    assert [k][1..] == [];
  }

  lemma ZhLacksToString()
    ensures Step(ZH, "toString").None?
  {
  }

  /** The key "toString" yields the inherited function as written, and itself once corrected. */
  lemma ToStringKey()
    ensures LookupAsWritten("zh", "toString") == Native("toString")
    ensures Lookup("zh", "toString") == Str("toString")
  {
    SplitPiece("toString", '.');
    ZhLacksToString();
    InheritedSegment(ZH, "toString");
  }

  /**
   * Which stored language is adopted at start: "zh" or "en" replace the
   * current one; anything else, or nothing, leaves it.
   */
  function Adopted(stored: Option<string>, current: string): (l: string)
    ensures stored == Some("zh") || stored == Some("en") ==> l == stored.value
    ensures stored != Some("zh") && stored != Some("en") ==> l == current
  {
    if stored.Some? && stored.value != [] && (stored.value == "zh" || stored.value == "en") then stored.value
    else current
  }

  /**
   * A language chosen and stored is the language after the next start,
   * when it is one with a table; any other choice is replaced by Chinese.
   */
  lemma ChoiceSurvivesRestart(choice: string)
    ensures Adopted(Some(choice), "zh") == (if choice == "en" then "en" else "zh")
  {
  }

  class LanguageProvider {
    var language: string
    /** The storage slot holding the chosen language. */
    var stored: Option<string>

    /** Chinese until the stored choice has been read. */
    constructor(stored: Option<string>)
      ensures language == "zh" && this.stored == stored
      ensures IsZh() && !IsEn()
    {
      language := "zh";
      this.stored := stored;
    }

    /**
     * Reads the stored choice at start. Only a language with a table is
     * adopted, so a provider that had one keeps having one.
     */
    method LoadSaved()
      modifies this`language
      ensures language == Adopted(stored, old(language))
      ensures old(IsZh() || IsEn()) ==> IsZh() || IsEn()
    {
      var saved := stored;
      if saved.Some? && saved.value != [] && (saved.value == "zh" || saved.value == "en") {
        language := saved.value;
      }
    }

    /** Sets the language and stores the same value; it is not checked. */
    method ChangeLanguage(newLanguage: string)
      modifies this
      ensures language == newLanguage && stored == Some(newLanguage)
    {
      language := newLanguage;
      stored := Some(newLanguage);
    }

    function IsZh(): (b: bool)
      reads this
      ensures b <==> language == "zh"
    {
      language == "zh"
    }

    function IsEn(): (b: bool)
      reads this
      ensures b <==> language == "en"
    {
      language == "en"
    }

    /**
     * `t(key)`: walks the segments one at a time, returning the key as soon
     * as a segment is missing, and the key too if the walk ends on a falsy value.
     */
    method Translate(key: string) returns (r: Value)
      ensures r == Lookup(language, key)
    {
      var keys := Split(key, '.');
      var value := Root(language);
      var i := 0;
      while i < |keys|
        invariant 0 <= i <= |keys|
        invariant Walk(Root(language), keys) == Walk(value, keys[i..])
      {
        var next := Step(value, keys[i]);
        if next.None? {
          return Str(key);
        }
        assert keys[i..][1..] == keys[i + 1..];
        value := next.value;
        i := i + 1;
      }
      if Falsy(value) {
        return Str(key);
      }
      return value;
    }
  }

  /** Chinese and English are never both current. */
  lemma NeverBoth(p: LanguageProvider)
    ensures !(p.IsZh() && p.IsEn())
  {
  }

  // ---------------------------------------------------------------------
  // The translation tables. Each nested table has a name of its own, so that
  // a proof about one pair of tables sees only those two.
  // ---------------------------------------------------------------------

  const ZH: Value := Table([
    ("loading", Str("加载中...")),
    ("error", Str("错误")),
    ("success", Str("成功")),
    ("cancel", Str("取消")),
    ("confirm", Str("确认")),
    ("save", Str("保存")),
    ("delete", Str("删除")),
    ("edit", Str("编辑")),
    ("landing", ZhLanding),
    ("auth", ZhAuth),
    ("todo", ZhTodo),
    ("priority", ZhPriority),
    ("theme", ZhTheme)])

  const ZhAuth: Value := Table([
    ("login", Str("登录")),
    ("register", Str("注册")),
    ("logout", Str("退出登录")),
    ("email", Str("邮箱")),
    ("password", Str("密码")),
    ("confirmPassword", Str("确认密码")),
    ("forgotPassword", Str("忘记密码？")),
    ("noAccount", Str("还没有账户？")),
    ("hasAccount", Str("已有账户？")),
    ("signUp", Str("注册账户")),
    ("signIn", Str("立即登录")),
    ("emailVerification", Str("请检查您的邮箱并点击验证链接完成注册")),
    ("loginError", Str("登录失败，请检查您的邮箱和密码")),
    ("registerError", Str("注册失败，请重试")),
    ("passwordMismatch", Str("密码不匹配"))])

  const ZhLanding: Value := Table([
    ("title", Str("高效管理您的每一个任务")),
    ("subtitle", Str("TodoMaster 是一款现代化的任务管理应用，帮助您高效地组织、跟踪和完成日常任务。通过直观的界面设计和强大的功能，让您的工作和生活更加井然有序。")),
    ("getStarted", Str("立即开始")),
    ("learnMore", Str("了解更多")),
    ("whyChoose", Str("为什么选择 TodoMaster？")),
    ("whyChooseDesc", Str("我们专注于提供最佳的任务管理体验，让您专注于真正重要的事情")),
    ("features", ZhLandingFeatures)])

  const ZhPriority: Value := Table([
    ("low", Str("低")),
    ("medium", Str("中")),
    ("high", Str("高")),
    ("label", Str("优先级")),
    ("recentTodos", Str("最近的待办事项"))])

  const ZhTheme: Value := Table([
    ("switchTo", Str("切换到")),
    ("dark", Str("深色")),
    ("light", Str("浅色")),
    ("mode", Str("模式"))])

  const ZhTodo: Value := Table([
    ("title", Str("我的待办事项")),
    ("addNew", Str("添加新任务")),
    ("placeholder", Str("输入新任务...")),
    ("searchPlaceholder", Str("搜索任务...")),
    ("completed", Str("已完成")),
    ("pending", Str("待完成")),
    ("all", Str("全部")),
    ("noTodos", Str("暂无待办事项")),
    ("noResults", Str("未找到匹配的待办事项")),
    ("noActive", Str("太棒了！没有待完成的任务")),
    ("noCompleted", Str("还没有已完成的任务")),
    ("addFirst", Str("添加您的第一个任务吧！")),
    ("markComplete", Str("标记完成")),
    ("markIncomplete", Str("标记未完成")),
    ("stats", ZhTodoStats)])

  const ZhLandingFeatures: Value := Table([
    ("easyToUse", ZhLandingFeaturesEasyToUse),
    ("realTimeSync", ZhLandingFeaturesRealTimeSync),
    ("secure", ZhLandingFeaturesSecure),
    ("smartReminder", ZhLandingFeaturesSmartReminder),
    ("collaboration", ZhLandingFeaturesCollaboration),
    ("crossPlatform", ZhLandingFeaturesCrossPlatform)])

  const ZhTodoStats: Value := Table([
    ("total", Str("总计")),
    ("completed", Str("已完成")),
    ("active", Str("待完成")),
    ("left", Str("剩余"))])

  const ZhLandingFeaturesCollaboration: Value := Table([
    ("title", Str("高效协作")),
    ("description", Str("团队协作功能让您与同事无缝配合，共同完成项目目标。"))])

  const ZhLandingFeaturesCrossPlatform: Value := Table([
    ("title", Str("跨平台支持")),
    ("description", Str("支持所有主流平台和设备，确保您在任何地方都能高效工作。"))])

  const ZhLandingFeaturesEasyToUse: Value := Table([
    ("title", Str("简单易用")),
    ("description", Str("直观的用户界面，让您快速上手，专注于任务本身而非学习如何使用工具。"))])

  const ZhLandingFeaturesRealTimeSync: Value := Table([
    ("title", Str("实时同步")),
    ("description", Str("云端同步技术确保您的任务在所有设备上保持最新状态，随时随地访问。"))])

  const ZhLandingFeaturesSecure: Value := Table([
    ("title", Str("安全可靠")),
    ("description", Str("企业级安全保护，您的数据安全是我们的首要任务，支持多重身份验证。"))])

  const ZhLandingFeaturesSmartReminder: Value := Table([
    ("title", Str("智能提醒")),
    ("description", Str("智能算法分析您的工作习惯，在最合适的时间提醒您完成重要任务。"))])

  const EN: Value := Table([
    ("loading", Str("Loading...")),
    ("error", Str("Error")),
    ("success", Str("Success")),
    ("cancel", Str("Cancel")),
    ("confirm", Str("Confirm")),
    ("save", Str("Save")),
    ("delete", Str("Delete")),
    ("edit", Str("Edit")),
    ("landing", EnLanding),
    ("auth", EnAuth),
    ("todo", EnTodo),
    ("priority", EnPriority),
    ("theme", EnTheme)])

  const EnAuth: Value := Table([
    ("login", Str("Login")),
    ("register", Str("Register")),
    ("logout", Str("Logout")),
    ("email", Str("Email")),
    ("password", Str("Password")),
    ("confirmPassword", Str("Confirm Password")),
    ("forgotPassword", Str("Forgot Password?")),
    ("noAccount", Str("Don't have an account?")),
    ("hasAccount", Str("Already have an account?")),
    ("signUp", Str("Sign Up")),
    ("signIn", Str("Sign In")),
    ("emailVerification", Str("Please check your email and click the verification link to complete registration")),
    ("loginError", Str("Login failed, please check your email and password")),
    ("registerError", Str("Registration failed, please try again")),
    ("passwordMismatch", Str("Passwords do not match"))])

  const EnLanding: Value := Table([
    ("title", Str("Efficiently Manage Every Task")),
    ("subtitle", Str("TodoMaster is a modern task management application that helps you efficiently organize, track, and complete daily tasks. With intuitive interface design and powerful features, make your work and life more organized.")),
    ("getStarted", Str("Get Started")),
    ("learnMore", Str("Learn More")),
    ("whyChoose", Str("Why Choose TodoMaster?")),
    ("whyChooseDesc", Str("We focus on providing the best task management experience, letting you focus on what truly matters")),
    ("features", EnLandingFeatures)])

  const EnPriority: Value := Table([
    ("low", Str("Low")),
    ("medium", Str("Medium")),
    ("high", Str("High")),
    ("label", Str("Priority")),
    ("recentTodos", Str("Recent Todos"))])

  const EnTheme: Value := Table([
    ("switchTo", Str("Switch to ")),
    ("dark", Str("dark")),
    ("light", Str("light")),
    ("mode", Str(" mode"))])

  const EnTodo: Value := Table([
    ("title", Str("My Todos")),
    ("addNew", Str("Add New Task")),
    ("placeholder", Str("Enter new task...")),
    ("searchPlaceholder", Str("Search tasks...")),
    ("completed", Str("Completed")),
    ("pending", Str("Pending")),
    ("all", Str("All")),
    ("noTodos", Str("No todos yet")),
    ("noResults", Str("No todos found matching")),
    ("noActive", Str("Great! No active tasks")),
    ("noCompleted", Str("No completed tasks yet")),
    ("addFirst", Str("Add your first task!")),
    ("markComplete", Str("Mark Complete")),
    ("markIncomplete", Str("Mark Incomplete")),
    ("stats", EnTodoStats)])

  const EnLandingFeatures: Value := Table([
    ("easyToUse", EnLandingFeaturesEasyToUse),
    ("realTimeSync", EnLandingFeaturesRealTimeSync),
    ("secure", EnLandingFeaturesSecure),
    ("smartReminder", EnLandingFeaturesSmartReminder),
    ("collaboration", EnLandingFeaturesCollaboration),
    ("crossPlatform", EnLandingFeaturesCrossPlatform)])

  const EnTodoStats: Value := Table([
    ("total", Str("Total")),
    ("completed", Str("Completed")),
    ("active", Str("Active")),
    ("left", Str("left"))])

  const EnLandingFeaturesCollaboration: Value := Table([
    ("title", Str("Efficient Collaboration")),
    ("description", Str("Team collaboration features let you work seamlessly with colleagues to achieve project goals together."))])

  const EnLandingFeaturesCrossPlatform: Value := Table([
    ("title", Str("Cross-platform Support")),
    ("description", Str("Support for all major platforms and devices, ensuring you can work efficiently anywhere."))])

  const EnLandingFeaturesEasyToUse: Value := Table([
    ("title", Str("Easy to Use")),
    ("description", Str("Intuitive user interface that lets you get started quickly, focusing on tasks rather than learning how to use the tool."))])

  const EnLandingFeaturesRealTimeSync: Value := Table([
    ("title", Str("Real-time Sync")),
    ("description", Str("Cloud synchronization technology ensures your tasks stay up-to-date across all devices, accessible anytime, anywhere."))])

  const EnLandingFeaturesSecure: Value := Table([
    ("title", Str("Secure & Reliable")),
    ("description", Str("Enterprise-grade security protection. Your data security is our top priority, with multi-factor authentication support."))])

  const EnLandingFeaturesSmartReminder: Value := Table([
    ("title", Str("Smart Reminders")),
    ("description", Str("Intelligent algorithms analyze your work habits and remind you to complete important tasks at the most appropriate times."))])
}
