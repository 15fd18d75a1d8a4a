/** The shape shared by the three keyword classifiers: an ordered list of
    rules, each naming a topic and the keyword alternatives that select it,
    evaluated top to bottom until one fires. */
module RuleChain {
  import opened Text

  /** One `if` of a classifier chain: the topic it returns, the words looked
      for with `includes` in the recent conversation, and the alternatives of
      the regular expression tested against the message. */
  datatype Rule<T> = Rule(topic: T, contextWords: seq<string>, messageWords: seq<string>)

  predicate Fires<T>(rule: Rule<T>, context: string, message: string)
  {
    ContainsAny(context, rule.contextWords) || ContainsAny(message, rule.messageWords)
  }

  /** Rule `k` fires and no rule before it does. */
  predicate FirstFiring<T>(rules: seq<Rule<T>>, k: int, context: string, message: string)
  {
    0 <= k < |rules| && Fires(rules[k], context, message) &&
    forall j :: 0 <= j < k ==> !Fires(rules[j], context, message)
  }

  /** The topic of the first rule that fires, or `otherwise` when none does. */
  function FirstMatch<T>(rules: seq<Rule<T>>, otherwise: T, context: string, message: string): (t: T)
    ensures (exists k :: FirstFiring(rules, k, context, message) && t == rules[k].topic) ||
            ((forall k :: 0 <= k < |rules| ==> !Fires(rules[k], context, message)) && t == otherwise)
  {
    if rules == [] then otherwise
    else if Fires(rules[0], context, message) then rules[0].topic
    else
      var t := FirstMatch(rules[1..], otherwise, context, message);
      assert forall k :: 1 <= k < |rules| ==> rules[1..][k - 1] == rules[k];
      t
  }

  /** First match wins: the first rule that fires decides the topic. */
  lemma {:induction false} FirstFiringDecides<T>(rules: seq<Rule<T>>, otherwise: T, context: string, message: string, k: int)
    requires FirstFiring(rules, k, context, message)
    ensures FirstMatch(rules, otherwise, context, message) == rules[k].topic
  {
    if k > 0 {
      assert FirstFiring(rules[1..], k - 1, context, message) by {
        forall j | 0 <= j < k - 1 ensures !Fires(rules[1..][j], context, message) {
          assert rules[1..][j] == rules[j + 1];
        }
      }
      FirstFiringDecides(rules[1..], otherwise, context, message, k - 1);
    }
  }

  /** Once rule `j` fires, no rule after it can decide the topic. */
  lemma FiringShadowsLater<T>(rules: seq<Rule<T>>, otherwise: T, context: string, message: string, j: int)
    requires 0 <= j < |rules| && Fires(rules[j], context, message)
    ensures exists k :: 0 <= k <= j && FirstFiring(rules, k, context, message) &&
                        FirstMatch(rules, otherwise, context, message) == rules[k].topic
  {
    var t := FirstMatch(rules, otherwise, context, message);
    var k :| FirstFiring(rules, k, context, message) && t == rules[k].topic;
    assert k <= j;
  }
}
