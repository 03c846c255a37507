/** The mock Voxtral intent classifier (agent/agent/models/voxtral.py): an
    if/elif chain of substring tests on the lowercased query. */
module Voxtral {
  import opened Text

  /** `classify_query`: the intent and its tags. */
  function ClassifyQuery(query: string): (r: (string, seq<string>))
    ensures Contains(Lower(query), "printer") ==> r == ("hardware_issue", ["printer", "hardware"])
    ensures !Contains(Lower(query), "printer")
            && (Contains(Lower(query), "password") || Contains(Lower(query), "login"))
            ==> r == ("account_issue", ["login", "password"])
    ensures !Contains(Lower(query), "printer") && !Contains(Lower(query), "password")
            && !Contains(Lower(query), "login") && Contains(Lower(query), "internet")
            ==> r == ("connectivity_issue", ["internet", "network"])
    ensures !Contains(Lower(query), "printer") && !Contains(Lower(query), "password")
            && !Contains(Lower(query), "login") && !Contains(Lower(query), "internet")
            ==> r == ("general_query", ["other"])
  {
    var q := Lower(query);
    if Contains(q, "printer") then ("hardware_issue", ["printer", "hardware"])
    else if Contains(q, "password") || Contains(q, "login") then ("account_issue", ["login", "password"])
    else if Contains(q, "internet") then ("connectivity_issue", ["internet", "network"])
    else ("general_query", ["other"])
  }

  /** The intent is one of four, each with its own fixed tags. */
  lemma ClassifyQueryRange(query: string)
    ensures ClassifyQuery(query) in
      [("hardware_issue", ["printer", "hardware"]), ("account_issue", ["login", "password"]),
       ("connectivity_issue", ["internet", "network"]), ("general_query", ["other"])]
  {
  }

  /** Matching ignores case: a query and its lowercased form, or the same
      query in capitals, are classified alike. */
  lemma {:induction false} ClassifyIgnoresCase(query: string, other: string)
    requires Lower(query) == Lower(other)
    ensures ClassifyQuery(query) == ClassifyQuery(other)
    ensures ClassifyQuery(Lower(query)) == ClassifyQuery(query)
  {
    LowerIdempotent(query);
  }

  /** A query naming a printer is a hardware issue even when it also speaks
      of a password, a login or the internet. */
  lemma PrinterWins(query: string, before: string, after: string)
    requires query == before + "printer" + after
    ensures ClassifyQuery(query).0 == "hardware_issue"
  {
    LowerAppend(before + "printer", after);
    LowerAppend(before, "printer");
    assert Lower("printer") == "printer";
    assert Contains(Lower(query), "printer") by {
      assert Contains("printer", "printer") by { assert OccursAt("printer", "printer", 0); }
      ContainsWithin(Lower(before), "printer", Lower(after), "printer");
    }
  }
}
