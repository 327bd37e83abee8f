// The application and category of a counter, by its network and service, and
// the cache in front of that decision.

module FlowClasses {

  datatype Label = Label(app: string, category: string)

  datatype Rules = Rules(strong: map<string, Label>, networks: map<nat, Label>, weak: map<string, Label>,
                         hosting: map<nat, string>, web: set<string>)

  // Without the cache: strong port, network, weak port, host, web.
  function ClassOf(rules: Rules, asn: nat, service: string): Label {
    if service in rules.strong then rules.strong[service]
    else if asn in rules.networks then
      if service == "stun" then rules.networks[asn].(category := "Calls") else rules.networks[asn]
    else if service in rules.weak then rules.weak[service]
    else if asn in rules.hosting then Label(rules.hosting[asn], "Cloud & CDN")
    else if service in rules.web then Label("Web", "Web")
    else Label("Other", "Other")
  }

  // What each kind of rule says, the strongest first: a strong port, the network
  // (on STUN it only names the app), a weak port, the hosting provider, the web.
  ghost function Says(rules: Rules, asn: nat, service: string): (says: seq<set<Label>>)
    ensures |says| == 6
  {
    [set s | s in rules.strong && s == service :: rules.strong[s],
     set n | n in rules.networks && n == asn :: Label(rules.networks[n].app, if service == "stun" then "Calls" else rules.networks[n].category),
     set s | s in rules.weak && s == service :: rules.weak[s],
     set n | n in rules.hosting && n == asn :: Label(rules.hosting[n], "Cloud & CDN"),
     set s | s in rules.web && s == service :: Label("Web", "Web"),
     {Label("Other", "Other")}]
  }

  // The strongest kind of rule that says anything decides, whatever the others say.
  lemma Precedence(rules: Rules, asn: nat, service: string, i: nat)
    requires i < 6 && Says(rules, asn, service)[i] != {}
    requires forall j :: 0 <= j < i ==> Says(rules, asn, service)[j] == {}
    ensures Says(rules, asn, service)[i] == {ClassOf(rules, asn, service)}
  {
    var says := Says(rules, asn, service);
    assert service in rules.strong ==> rules.strong[service] in says[0];
    assert asn in rules.networks ==>
        Label(rules.networks[asn].app, if service == "stun" then "Calls" else rules.networks[asn].category) in says[1];
    assert service in rules.weak ==> rules.weak[service] in says[2];
    assert asn in rules.hosting ==> Label(rules.hosting[asn], "Cloud & CDN") in says[3];
    assert service in rules.web ==> Label("Web", "Web") in says[4];
  }

  class Classifier {
    const rules: Rules
    var cache: map<(nat, string), Label>

    ghost predicate Valid()
      reads this
    {
      forall k :: k in cache ==> cache[k] == ClassOf(rules, k.0, k.1)
    }

    constructor (rules: Rules)
      ensures Valid() && this.rules == rules
    {
      this.rules, cache := rules, map[];
    }

    method Classify(asn: nat, service: string) returns (r: Label)
      requires Valid()
      modifies `cache
      ensures Valid() && r == ClassOf(rules, asn, service)
    {
      if (asn, service) in cache {
        return cache[(asn, service)];
      }
      r := ClassOf(rules, asn, service);
      cache := cache[(asn, service) := r];
    }
  }
}
