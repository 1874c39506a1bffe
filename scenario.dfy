/**
 * A client: a draft that is submitted and then approved. What each call yields follows
 * from the contracts of StateMachine.Record alone.
 */
module Scenario {
  import opened Wrappers
  import opened Rules
  import opened Naming
  import opened StateMachine

  /** Lower-cases a leading capital, which is all snake-casing does to a one-word name. */
  function LowerFirst(s: string): string {
    if |s| > 0 && 'A' <= s[0] <= 'Z' then [(s[0] as int + 32) as char] + s[1..] else s
  }

  function DemoRules(): seq<Rule> {
    [Rule(["draft"], "submitted", "submit"), Rule(["submitted"], "approved", "approve")]
  }

  function DemoConfig(): Config {
    Config(Some(DemoRules()), Some("draft"), None, None)
  }

  const NoParse: string -> Option<int> := _ => None

  /** A fresh record with an unset state field may submit, and asking initialises it. */
  method FreshDraftCanSubmit() {
    var rules := DemoRules();
    var record := new Record(DemoConfig(), "", map[]);
    assert Classify("canSubmit") == CanQuery("Submit") by {
      assert PrefixedQuery("canSubmit", "can") && "canSubmit"[3..] == "Submit";
    }
    assert LowerFirst("Submit") == "submit";
    assert KnownAction(rules, "submit") && CanFire(rules, "draft", "submit") by {
      assert rules[0].on == "submit" && "draft" in rules[0].from;
    }
    var r := record.Call("canSubmit", LowerFirst, NoParse, true);
    assert r == Answer(true) && record.state == "draft";
  }

  /** Submitting a draft moves it to "submitted". */
  method SubmitDraft() {
    var rules := DemoRules();
    var record := new Record(DemoConfig(), "draft", map[]);
    assert Classify("submit") == Bare("submit") by {
      assert !PrefixedQuery("submit", "can") && !PrefixedQuery("submit", "is") && !TimestampQuery("submit");
    }
    assert KnownAction(rules, "submit") && CanFire(rules, "draft", "submit") by {
      assert rules[0].on == "submit" && "draft" in rules[0].from;
    }
    assert LastTo(rules, "submit") == Some("submitted");
    var r := record.Call("submit", LowerFirst, NoParse, true);
    assert r == Saved(true) && record.state == "submitted" && record.fromTransition == Some("draft");
  }

  /** Once submitted, the record can no longer submit. */
  method SubmittedCannotSubmit() {
    var rules := DemoRules();
    var record := new Record(DemoConfig(), "submitted", map[]);
    assert Classify("canSubmit") == CanQuery("Submit") by {
      assert PrefixedQuery("canSubmit", "can") && "canSubmit"[3..] == "Submit";
    }
    assert LowerFirst("Submit") == "submit";
    assert KnownAction(rules, "submit") by { assert rules[0].on == "submit"; }
    var r := record.Call("canSubmit", LowerFirst, NoParse, true);
    assert r == Answer(false);
  }

  /** Approving a submitted record moves it to "approved". */
  method ApproveSubmitted() {
    var rules := DemoRules();
    var record := new Record(DemoConfig(), "submitted", map[]);
    assert Classify("approve") == Bare("approve") by {
      assert !PrefixedQuery("approve", "can") && !PrefixedQuery("approve", "is") && !TimestampQuery("approve");
    }
    assert KnownAction(rules, "approve") && CanFire(rules, "submitted", "approve") by {
      assert rules[1].on == "approve" && "submitted" in rules[1].from;
    }
    assert LastTo(rules, "approve") == Some("approved");
    var r := record.Call("approve", LowerFirst, NoParse, true);
    assert r == Saved(true) && record.state == "approved";
  }

  /** Submitting an approved record is refused and leaves it approved. */
  method SubmitApprovedFails() {
    var rules := DemoRules();
    var record := new Record(DemoConfig(), "approved", map[]);
    assert Classify("submit") == Bare("submit") by {
      assert !PrefixedQuery("submit", "can") && !PrefixedQuery("submit", "is") && !TimestampQuery("submit");
    }
    assert KnownAction(rules, "submit") by { assert rules[0].on == "submit"; }
    var r := record.Call("submit", LowerFirst, NoParse, true);
    assert r == InvalidStateTransition("approved", "submit") && record.state == "approved";
  }
}
