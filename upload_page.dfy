/** The activity icon the upload page shows next to the latest progress message. */
module UploadPage {
  import opened Text

  /**
   * `getActivityIcon`: the message is lower-cased, then tested against keyword rules in a fixed
   * order; the first rule with a keyword in the message gives the icon.
   */
  function ActivityIcon(processingStatus: string): (icon: string)
    ensures icon in {"folder_open", "description", "rule", "api", "settings", "storage", "database", "code",
                     "search", "warning", "bug_report", "check_circle", "psychology", "autorenew"}
  {
    var message := Lower(processingStatus);
    if Contains(message, "folder") || Contains(message, "structure") then "folder_open"
    else if Contains(message, "documentation") || Contains(message, "readme") then "description"
    else if Contains(message, "standard") || Contains(message, "pattern") then "rule"
    else if Contains(message, "controller") then "api"
    else if Contains(message, "service") || Contains(message, "business logic") then "settings"
    else if Contains(message, "model") || Contains(message, "entity") then "storage"
    else if Contains(message, "repository") then "database"
    else if Contains(message, "interface") then "code"
    else if Contains(message, "analyzing") || Contains(message, "detection") then "search"
    else if Contains(message, "violation") then "warning"
    else if Contains(message, "bug") then "bug_report"
    else if Contains(message, "report") || Contains(message, "completed") then "check_circle"
    else if Contains(message, "ai") || Contains(message, "model") then "psychology"
    else "autorenew"
  }

  /** One rule of the chain: any of its keywords selects its icon. */
  datatype Rule = Rule(keywords: seq<string>, icon: string)

  /** The rules in the order they are tested. */
  function ActivityRules(): seq<Rule>
  {
    [ Rule(["folder", "structure"], "folder_open"),
      Rule(["documentation", "readme"], "description"),
      Rule(["standard", "pattern"], "rule"),
      Rule(["controller"], "api"),
      Rule(["service", "business logic"], "settings"),
      Rule(["model", "entity"], "storage"),
      Rule(["repository"], "database"),
      Rule(["interface"], "code"),
      Rule(["analyzing", "detection"], "search"),
      Rule(["violation"], "warning"),
      Rule(["bug"], "bug_report"),
      Rule(["report", "completed"], "check_circle"),
      Rule(["ai", "model"], "psychology") ]
  }

  predicate Fires(message: string, rule: Rule)
  {
    exists k | 0 <= k < |rule.keywords| :: Contains(message, rule.keywords[k])
  }

  /** The icon of the first rule that fires, or the fallback. */
  function FirstMatch(message: string, rules: seq<Rule>, fallback: string): (icon: string)
    ensures icon == fallback || exists i | 0 <= i < |rules| :: icon == rules[i].icon
  {
    if rules == [] then fallback
    else if Fires(message, rules[0]) then rules[0].icon
    else FirstMatch(message, rules[1..], fallback)
  }

  /** The chain of tests is the first-match reading of the rule table. */
  lemma ActivityIconIsFirstMatch(processingStatus: string)
    ensures ActivityIcon(processingStatus) == FirstMatch(Lower(processingStatus), ActivityRules(), "autorenew")
  {
    var m := Lower(processingStatus);
    EarlyRulesFire(m);
    LateRulesFire(m);
    FirstMatchUnfold(m, ActivityRules(), "autorenew");
  }

  /** Rules 0 to 6 of the table fire on exactly their keywords. */
  lemma EarlyRulesFire(m: string)
    ensures |ActivityRules()| == 13
    ensures Fires(m, ActivityRules()[0]) == (Contains(m, "folder") || Contains(m, "structure")) && ActivityRules()[0].icon == "folder_open"
    ensures Fires(m, ActivityRules()[1]) == (Contains(m, "documentation") || Contains(m, "readme")) && ActivityRules()[1].icon == "description"
    ensures Fires(m, ActivityRules()[2]) == (Contains(m, "standard") || Contains(m, "pattern")) && ActivityRules()[2].icon == "rule"
    ensures Fires(m, ActivityRules()[3]) == Contains(m, "controller") && ActivityRules()[3].icon == "api"
    ensures Fires(m, ActivityRules()[4]) == (Contains(m, "service") || Contains(m, "business logic")) && ActivityRules()[4].icon == "settings"
    ensures Fires(m, ActivityRules()[5]) == (Contains(m, "model") || Contains(m, "entity")) && ActivityRules()[5].icon == "storage"
    ensures Fires(m, ActivityRules()[6]) == Contains(m, "repository") && ActivityRules()[6].icon == "database"
  {
    var rs := ActivityRules();
    FiresPair(m, rs[0], "folder", "structure");
    FiresPair(m, rs[1], "documentation", "readme");
    FiresPair(m, rs[2], "standard", "pattern");
    FiresOne(m, rs[3], "controller");
    FiresPair(m, rs[4], "service", "business logic");
    FiresPair(m, rs[5], "model", "entity");
    FiresOne(m, rs[6], "repository");
  }

  /** Rules 7 to 12 of the table fire on exactly their keywords. */
  lemma LateRulesFire(m: string)
    ensures Fires(m, ActivityRules()[7]) == Contains(m, "interface") && ActivityRules()[7].icon == "code"
    ensures Fires(m, ActivityRules()[8]) == (Contains(m, "analyzing") || Contains(m, "detection")) && ActivityRules()[8].icon == "search"
    ensures Fires(m, ActivityRules()[9]) == Contains(m, "violation") && ActivityRules()[9].icon == "warning"
    ensures Fires(m, ActivityRules()[10]) == Contains(m, "bug") && ActivityRules()[10].icon == "bug_report"
    ensures Fires(m, ActivityRules()[11]) == (Contains(m, "report") || Contains(m, "completed")) && ActivityRules()[11].icon == "check_circle"
    ensures Fires(m, ActivityRules()[12]) == (Contains(m, "ai") || Contains(m, "model")) && ActivityRules()[12].icon == "psychology"
  {
    var rs := ActivityRules();
    FiresOne(m, rs[7], "interface");
    FiresPair(m, rs[8], "analyzing", "detection");
    FiresOne(m, rs[9], "violation");
    FiresOne(m, rs[10], "bug");
    FiresPair(m, rs[11], "report", "completed");
    FiresPair(m, rs[12], "ai", "model");
  }

  /** A two-keyword rule fires iff either keyword occurs. */
  lemma FiresPair(m: string, r: Rule, a: string, b: string)
    requires r.keywords == [a, b]
    ensures Fires(m, r) <==> Contains(m, a) || Contains(m, b)
  {
    if Contains(m, a) {
      assert r.keywords[0] == a;
    }
    if Contains(m, b) {
      assert r.keywords[1] == b;
    }
  }

  /** A one-keyword rule fires iff its keyword occurs. */
  lemma FiresOne(m: string, r: Rule, a: string)
    requires r.keywords == [a]
    ensures Fires(m, r) <==> Contains(m, a)
  {
    if Contains(m, a) {
      assert r.keywords[0] == a;
    }
  }

  lemma FirstMatchStep(m: string, rules: seq<Rule>, k: int, fallback: string)
    requires 0 <= k < |rules|
    ensures FirstMatch(m, rules[k..], fallback) ==
      if Fires(m, rules[k]) then rules[k].icon else FirstMatch(m, rules[k + 1..], fallback)
  {
    assert rules[k..][0] == rules[k] && rules[k..][1..] == rules[k + 1..];
  }

  lemma FirstMatchUnfold(m: string, rules: seq<Rule>, fallback: string)
    requires |rules| == 13
    ensures FirstMatch(m, rules, fallback) ==
      if Fires(m, rules[0]) then rules[0].icon
      else if Fires(m, rules[1]) then rules[1].icon
      else if Fires(m, rules[2]) then rules[2].icon
      else if Fires(m, rules[3]) then rules[3].icon
      else if Fires(m, rules[4]) then rules[4].icon
      else if Fires(m, rules[5]) then rules[5].icon
      else if Fires(m, rules[6]) then rules[6].icon
      else if Fires(m, rules[7]) then rules[7].icon
      else if Fires(m, rules[8]) then rules[8].icon
      else if Fires(m, rules[9]) then rules[9].icon
      else if Fires(m, rules[10]) then rules[10].icon
      else if Fires(m, rules[11]) then rules[11].icon
      else if Fires(m, rules[12]) then rules[12].icon
      else fallback
  {
    FirstMatchStep(m, rules, 0, fallback);
    FirstMatchStep(m, rules, 1, fallback);
    FirstMatchStep(m, rules, 2, fallback);
    FirstMatchStep(m, rules, 3, fallback);
    FirstMatchStep(m, rules, 4, fallback);
    FirstMatchStep(m, rules, 5, fallback);
    FirstMatchStep(m, rules, 6, fallback);
    FirstMatchStep(m, rules, 7, fallback);
    FirstMatchStep(m, rules, 8, fallback);
    FirstMatchStep(m, rules, 9, fallback);
    FirstMatchStep(m, rules, 10, fallback);
    FirstMatchStep(m, rules, 11, fallback);
    FirstMatchStep(m, rules, 12, fallback);
    assert rules[0..] == rules && rules[13..] == [];
  }

  /** Upper and lower case are not told apart. */
  lemma ActivityIconIgnoresCase(processingStatus: string)
    ensures ActivityIcon(Lower(processingStatus)) == ActivityIcon(processingStatus)
  {
    LowerIdempotent(processingStatus);
  }

  /**
   * The "model" keyword of the last rule never decides: a message with "model" already gets
   * "storage". So "psychology" is shown exactly for messages with "ai" and none of the keywords
   * of the earlier rules.
   */
  lemma PsychologyOnlyForAi(processingStatus: string)
    ensures var m := Lower(processingStatus);
      ActivityIcon(processingStatus) == "psychology" <==>
        Contains(m, "ai") &&
        !(Contains(m, "folder") || Contains(m, "structure") || Contains(m, "documentation") || Contains(m, "readme")
          || Contains(m, "standard") || Contains(m, "pattern") || Contains(m, "controller") || Contains(m, "service")
          || Contains(m, "business logic") || Contains(m, "model") || Contains(m, "entity") || Contains(m, "repository")
          || Contains(m, "interface") || Contains(m, "analyzing") || Contains(m, "detection") || Contains(m, "violation")
          || Contains(m, "bug") || Contains(m, "report") || Contains(m, "completed"))
  {
  }

  /** The fallback icon is shown exactly when no keyword occurs. */
  lemma AutorenewWhenNoKeyword(processingStatus: string)
    ensures var m := Lower(processingStatus);
      ActivityIcon(processingStatus) == "autorenew" <==>
        !(Contains(m, "folder") || Contains(m, "structure") || Contains(m, "documentation") || Contains(m, "readme")
          || Contains(m, "standard") || Contains(m, "pattern") || Contains(m, "controller") || Contains(m, "service")
          || Contains(m, "business logic") || Contains(m, "model") || Contains(m, "entity") || Contains(m, "repository")
          || Contains(m, "interface") || Contains(m, "analyzing") || Contains(m, "detection") || Contains(m, "violation")
          || Contains(m, "bug") || Contains(m, "report") || Contains(m, "completed") || Contains(m, "ai"))
  {
  }

  /** An earlier rule wins over a later one: "detection" with "bug" selects the search icon. */
  lemma DetectionBeforeBug(processingStatus: string)
    requires var m := Lower(processingStatus);
      Contains(m, "detection") && Contains(m, "bug")
      && !(Contains(m, "folder") || Contains(m, "structure") || Contains(m, "documentation") || Contains(m, "readme")
          || Contains(m, "standard") || Contains(m, "pattern") || Contains(m, "controller") || Contains(m, "service")
          || Contains(m, "business logic") || Contains(m, "model") || Contains(m, "entity") || Contains(m, "repository")
          || Contains(m, "interface"))
    ensures ActivityIcon(processingStatus) == "search"
  {
  }
}
