/** The errors the method-export analyzer reports, one constructor per
    message in gdnative-derive/src/methods.rs. */
module Diagnostics {
  import Text

  datatype ExportError =
    // attribute options
    | AttrParseError(message: string)
    | NameValueSyntax
    | LiteralItem
    | ListItem
    | RpcRequiresString
    | RpcSetTwice
    | RpcUnexpectedValue(value: string)
    | RpcUnexpectedType
    | NameRequiresString
    | NameSetTwice
    | NameUnexpectedType
    | DerefTakesNoValue
    | DerefSetTwice
    | UnknownOption(macroName: string, option: string)
    // parameter positions
    | SelfOrBaseOptional
    | RequiredAfterOptional
    | BaseNotSecond
    // generics
    | TypeParamsNotAllowed
    | LifetimeParamsNotAllowed
    | ConstParamsNotAllowed
    // registration
    | MustTakeSelf
    | LegacyMustTakeBase
    | TooManyOptional(max: int, count: nat)

  /** The text the compile error carries. */
  function Message(e: ExportError): string {
    match e
    case AttrParseError(m) => m
    case NameValueSyntax => "NameValue syntax is not valid"
    case LiteralItem => "Literal item is not valid"
    case ListItem => "List item is not valid"
    case RpcRequiresString => "`rpc` parameter requires string value"
    case RpcSetTwice => "`rpc` mode was set more than once"
    case RpcUnexpectedValue(v) => "unexpected value for `rpc`: " + v
    case RpcUnexpectedType => "unexpected type for `rpc` value, expected string"
    case NameRequiresString => "`name` parameter requires string value"
    case NameSetTwice => "`name` was set more than once"
    case NameUnexpectedType => "unexpected type for `name` value, expected string"
    case DerefTakesNoValue => "`deref_return` does not take any values"
    case DerefSetTwice => "`deref_return` was set more than once"
    case UnknownOption(macroName, option) => "unknown option for #[" + macroName + "]: `" + option + "`"
    case SelfOrBaseOptional => "self or base cannot be optional"
    case RequiredAfterOptional => "cannot add required parameters after optional ones"
    case BaseNotSecond => "base must be the second parameter."
    case TypeParamsNotAllowed => "Type parameters not allowed in exported functions"
    case LifetimeParamsNotAllowed => "Lifetime parameters not allowed in exported functions"
    case ConstParamsNotAllowed => "const parameters not allowed in exported functions"
    case MustTakeSelf => "#[method] exported methods must take self parameter"
    case LegacyMustTakeBase => "deprecated #[export] methods must take second parameter (base/owner)"
    case TooManyOptional(max, count) =>
      "there can be at most " + Text.IntText(max) + " optional parameters, got " + Text.NatText(count)
  }

  /** The capacity message prints both numbers in decimal. */
  lemma TooManyOptionalMessage()
    ensures Message(TooManyOptional(1, 13)) == "there can be at most " + "1" + " optional parameters, got " + "13"
  {
    assert Text.IntText(1) == "1";
    assert Text.NatText(13) == Text.NatText(1) + [Text.DigitChar(3)] == "13";
  }

  /** The unknown-option message names the marker and the option. */
  lemma UnknownOptionMessage()
    ensures Message(UnknownOption("method", "foo")) == "unknown option for #[method]: `foo`"
  {
  }
}
