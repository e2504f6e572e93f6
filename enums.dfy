/** The string-valued enumerations the client sends on the wire. */
module Enums {

  /** OAuth2 scopes the client can request. */
  datatype Scope =
    | MarketData | ReadAccount | Trade | OptionSpreads | Matrix
    | OpenId | OfflineAccess | Profile | Email
  {
    /** The enum member's `value`, the scope name sent to the identity provider. */
    function Value(): (v: string)
      ensures |v| > 0
    {
      match this
      case MarketData => "MarketData"
      case ReadAccount => "ReadAccount"
      case Trade => "Trade"
      case OptionSpreads => "OptionSpreads"
      case Matrix => "Matrix"
      case OpenId => "openid"
      case OfflineAccess => "offline_access"
      case Profile => "profile"
      case Email => "email"
    }
  }

  /** US equity session templates for bar requests. */
  datatype SessionTemplate = UseqPre | UseqPost | UseqPreAndPost | Useq24Hour | Default
  {
    function Value(): string
    {
      match this
      case UseqPre => "USEQPre"
      case UseqPost => "USEQPost"
      case UseqPreAndPost => "USEQPreAndPost"
      case Useq24Hour => "USEQ24Hour"
      case Default => "Default"
    }
  }

  /** The unit of one bar's interval. */
  datatype BarUnit = Minute | Daily | Weekly | Monthly
  {
    function Value(): string
    {
      match this
      case Minute => "Minute"
      case Daily => "Daily"
      case Weekly => "Weekly"
      case Monthly => "Monthly"
    }
  }

  /** Scope names are non-empty and free of the characters that delimit the authorization query. */
  lemma ScopeValueIsWord(s: Scope)
    ensures |s.Value()| > 0
    ensures ' ' !in s.Value() && '&' !in s.Value() && '=' !in s.Value()
  {
    var v := s.Value();
    assert forall i :: 0 <= i < |v| ==> 'A' <= v[i] <= 'Z' || 'a' <= v[i] <= 'z' || v[i] == '_';
  }

  /** Distinct scopes have distinct names, so a scope string names its scopes unambiguously. */
  lemma ScopeValueInjective(s: Scope, t: Scope)
    requires s.Value() == t.Value()
    ensures s == t
  {
  }
}
