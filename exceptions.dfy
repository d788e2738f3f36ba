/**
 * The exceptions that the modelled code raises or lets propagate: the ones
 * declared in chaionline/exceptions.py, and the Python built-in ones that
 * escape from the core (a failed JSON decode, an exhausted stream iterator,
 * a missing dictionary key).
 */
module Exceptions {

  datatype Error =
    | ResponseError
    | LoadConfigError
    | GameStartTimeout
    | GameSearchTimeout
    | StreamItemError
    | GameError
    | GameSearchMaxTries
    | GameDataParseError
      // Python built-ins
    | JsonDecodeError
    | StopIteration
    | KeyError
    | IndexError
}
