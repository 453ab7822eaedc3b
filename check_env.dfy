/** The environment check script: for each app it splits the app's required
    variable names into those that are missing and those that are set, and
    the run as a whole is good iff no app misses any. */
module CheckEnv {

  /** `process.env` */
  type Env = map<string, string>

  /** `!process.env[name]`: absent, or set to the empty string. */
  predicate IsMissing(env: Env, name: string) {
    name !in env || env[name] == ""
  }

  /** The names of `vars` that are missing, in their order in `vars`. */
  function MissingOf(vars: seq<string>, env: Env): (r: seq<string>)
    ensures |r| <= |vars|
    ensures forall j :: 0 <= j < |r| ==> r[j] in vars && IsMissing(env, r[j])
  {
    if vars == [] then []
    else MissingOf(vars[..|vars| - 1], env) + (if IsMissing(env, vars[|vars| - 1]) then [vars[|vars| - 1]] else [])
  }

  /** The names of `vars` that are set, in their order in `vars`. */
  function PresentOf(vars: seq<string>, env: Env): (r: seq<string>)
    ensures |r| <= |vars|
    ensures forall j :: 0 <= j < |r| ==> r[j] in vars && !IsMissing(env, r[j])
  {
    if vars == [] then []
    else PresentOf(vars[..|vars| - 1], env) + (if IsMissing(env, vars[|vars| - 1]) then [] else [vars[|vars| - 1]])
  }

  /** Every required name of one app is set. */
  predicate AppOk(vars: seq<string>, env: Env) {
    forall j :: 0 <= j < |vars| ==> !IsMissing(env, vars[j])
  }

  /** The two lists split `vars`: every occurrence lands in exactly one. */
  lemma {:induction false} MissingAndPresentPartition(vars: seq<string>, env: Env)
    ensures multiset(MissingOf(vars, env)) + multiset(PresentOf(vars, env)) == multiset(vars)
  {
    if vars != [] {
      var init, last := vars[..|vars| - 1], vars[|vars| - 1];
      MissingAndPresentPartition(init, env);
      assert vars == init + [last];
      var m, p := MissingOf(init, env), PresentOf(init, env);
      if IsMissing(env, last) {
        assert MissingOf(vars, env) == m + [last] && PresentOf(vars, env) == p;
      } else {
        assert MissingOf(vars, env) == m && PresentOf(vars, env) == p + [last];
      }
    }
  }

  /** A name is listed as missing iff it is one of `vars` and it is missing,
      and listed as set iff it is one of `vars` and it is set. */
  lemma {:induction false} MembershipIsByValue(vars: seq<string>, env: Env, name: string)
    ensures name in MissingOf(vars, env) <==> name in vars && IsMissing(env, name)
    ensures name in PresentOf(vars, env) <==> name in vars && !IsMissing(env, name)
  {
    if vars != [] {
      var init := vars[..|vars| - 1];
      MembershipIsByValue(init, env, name);
      assert vars == init + [vars[|vars| - 1]];
    }
  }

  /** Nothing is missing iff every name is set. */
  lemma {:induction false} NoneMissingIffAppOk(vars: seq<string>, env: Env)
    ensures MissingOf(vars, env) == [] <==> AppOk(vars, env)
  {
    if vars != [] {
      var init := vars[..|vars| - 1];
      NoneMissingIffAppOk(init, env);
      assert forall j :: 0 <= j < |init| ==> init[j] == vars[j];
    }
  }

  /** `checkEnvVars(appName, vars)`: the result, with the two lists it
      reports. */
  method CheckEnvVars(appName: string, vars: seq<string>, env: Env) returns (ok: bool, missing: seq<string>, present: seq<string>)
    ensures missing == MissingOf(vars, env) && present == PresentOf(vars, env)
    ensures ok <==> AppOk(vars, env)
  {
    missing, present := [], [];
    var i := 0;
    while i < |vars|
      invariant 0 <= i <= |vars|
      invariant missing == MissingOf(vars[..i], env)
      invariant present == PresentOf(vars[..i], env)
    {
      assert vars[..i + 1][..i] == vars[..i];
      if IsMissing(env, vars[i]) {
        missing := missing + [vars[i]];
      } else {
        present := present + [vars[i]];
      }
      i := i + 1;
    }
    assert vars[..|vars|] == vars;
    NoneMissingIffAppOk(vars, env);
    ok := |missing| == 0;
  }

  /** `requiredEnvVars`, in the order `Object.entries` lists it. */
  const RequiredEnvVars: seq<(string, seq<string>)> := [
    ("root", ["DATABASE_URL", "ACCESS_TOKEN_SECRET", "REFRESH_TOKEN_SECRET", "NEXTAUTH_SECRET",
              "GOOGLE_CLIENT_ID", "GOOGLE_CLIENT_SECRET", "YOUTUBE_API_KEY"]),
    ("server", ["DATABASE_URL", "ACCESS_TOKEN_SECRET", "REFRESH_TOKEN_SECRET", "PORT"]),
    ("web", ["DATABASE_URL", "NEXTAUTH_SECRET", "NEXTAUTH_URL", "GOOGLE_CLIENT_ID", "GOOGLE_CLIENT_SECRET"]),
    ("youtube-scraper", ["YOUTUBE_API_KEY", "PORT"]),
    ("db", ["DATABASE_URL"])
  ]

  /** Every app's check passes. */
  predicate AllAppsOk(apps: seq<(string, seq<string>)>, env: Env) {
    forall i :: 0 <= i < |apps| ==> AppOk(apps[i].1, env)
  }

  /** One app's report: its name, its missing names and its set names. */
  type Report = (string, seq<string>, seq<string>)

  /** The loop of `main`: `allGood = allGood && checkEnvVars(...)` over every
      app. The check is made before the `&&`, so every app is checked, and
      its missing and set names reported, even after one has failed;
      `reports` holds those reports in the order they were made. */
  method CheckAll(apps: seq<(string, seq<string>)>, env: Env) returns (allGood: bool, reports: seq<Report>)
    ensures allGood <==> AllAppsOk(apps, env)
    ensures |reports| == |apps|
    ensures forall i :: 0 <= i < |apps| ==>
      reports[i] == (apps[i].0, MissingOf(apps[i].1, env), PresentOf(apps[i].1, env))
  {
    allGood, reports := true, [];
    var i := 0;
    while i < |apps|
      invariant 0 <= i <= |apps|
      invariant allGood <==> AllAppsOk(apps[..i], env)
      invariant |reports| == i
      invariant forall k :: 0 <= k < i ==>
        reports[k] == (apps[k].0, MissingOf(apps[k].1, env), PresentOf(apps[k].1, env))
    {
      var result, missing, present := CheckEnvVars(apps[i].0, apps[i].1, env);
      reports := reports + [(apps[i].0, missing, present)];
      allGood := allGood && result;
      assert apps[..i + 1][..i] == apps[..i];
      i := i + 1;
    }
    assert apps[..|apps|] == apps;
  }

  /** The distinct names the script requires. */
  const RequiredNames: set<string> := {
    "DATABASE_URL", "ACCESS_TOKEN_SECRET", "REFRESH_TOKEN_SECRET", "NEXTAUTH_SECRET", "NEXTAUTH_URL",
    "GOOGLE_CLIENT_ID", "GOOGLE_CLIENT_SECRET", "YOUTUBE_API_KEY", "PORT"
  }

  /** The script reports all good iff each of the nine distinct required
      names is set to a non-empty value. */
  lemma AllGoodIffRequiredNamesSet(env: Env)
    ensures AllAppsOk(RequiredEnvVars, env) <==> forall n :: n in RequiredNames ==> !IsMissing(env, n)
  {
    if forall n :: n in RequiredNames ==> !IsMissing(env, n) {
      forall i | 0 <= i < |RequiredEnvVars| ensures AppOk(RequiredEnvVars[i].1, env) {
        forall j | 0 <= j < |RequiredEnvVars[i].1| ensures !IsMissing(env, RequiredEnvVars[i].1[j]) {
          assert RequiredEnvVars[i].1[j] in RequiredNames;
        }
      }
    }
    if AllAppsOk(RequiredEnvVars, env) {
      assert AppOk(RequiredEnvVars[0].1, env) && AppOk(RequiredEnvVars[1].1, env) && AppOk(RequiredEnvVars[2].1, env);
      forall n | n in RequiredNames ensures !IsMissing(env, n) {
        if n == "PORT" { assert RequiredEnvVars[1].1[3] == n; }
        else if n == "NEXTAUTH_URL" { assert RequiredEnvVars[2].1[2] == n; }
        else { assert n in RequiredEnvVars[0].1; }
      }
    }
  }
}
