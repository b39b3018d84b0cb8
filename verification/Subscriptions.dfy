/** Subscriptions and their validation (subscription.go). */
module Subscriptions {
  import opened Options
  import opened Ast

  datatype Subscription = Subscription(
    id: string,
    query: string,
    document: Option<Document>,
    fields: seq<string>,
    connected: bool)   // Connection != nil

  datatype ValidationError = IDEmpty | HasNoConnection | HasNoQuery

  /** What a stored subscription looks like: validated, parsed, fields extracted. */
  predicate WellFormed(s: Subscription) {
    && s.id != "" && s.query != "" && s.connected
    && s.document.Some? && s.fields == FieldNames(s.document.value)
  }

  method ValidateSubscription(s: Subscription) returns (errs: seq<ValidationError>)
    ensures errs == [] <==> s.id != "" && s.connected && s.query != ""
    ensures IDEmpty in errs <==> s.id == ""
    ensures HasNoConnection in errs <==> !s.connected
    ensures HasNoQuery in errs <==> s.query == ""
    ensures errs <= [IDEmpty, HasNoConnection, HasNoQuery] || errs <= [IDEmpty, HasNoQuery]
            || errs <= [HasNoConnection, HasNoQuery] || errs <= [HasNoQuery]
  {
    errs := [];
    if s.id == "" {
      errs := errs + [IDEmpty];
    }
    if !s.connected {
      errs := errs + [HasNoConnection];
    }
    if s.query == "" {
      errs := errs + [HasNoQuery];
    }
  }

  method MatchesField(s: Subscription, field: string) returns (matches: bool)
    ensures matches <==> s.document.Some? && field in s.fields
    ensures s.document.Some? && s.fields == FieldNames(s.document.value) && field != ""
            ==> (matches <==> SelectsField(s.document.value, field))
  {
    if s.document.Some? && field != "" {
      ExtractedIffSelected(s.document.value, field);
    }
    if s.document.None? || |s.fields| == 0 {
      return false;
    }
    for i := 0 to |s.fields|
      invariant field !in s.fields[..i]
    {
      if s.fields[i] == field {
        return true;
      }
    }
    return false;
  }
}
