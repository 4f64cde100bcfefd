/** The sync status enumeration of service.py and its wire values. */
module Status {
  import opened Wrappers

  datatype AppStatus = Idle | Starting | LoggingIn | WaitingOtp | FetchingData | SavingData | Success | Error

  /** The wire values; the two-word ones join their words with an underscore. */
  const IdleValue := "idle"
  const StartingValue := "starting"
  const LoggingInValue := "logging" + "_" + "in"
  const WaitingOtpValue := "waiting" + "_" + "otp"
  const FetchingDataValue := "fetching" + "_" + "data"
  const SavingDataValue := "saving" + "_" + "data"
  const SuccessValue := "success"
  const ErrorValue := "error"

  /** The string value of each member, as sent to the dashboard. */
  function Value(s: AppStatus): string {
    match s
    case Idle => IdleValue
    case Starting => StartingValue
    case LoggingIn => LoggingInValue
    case WaitingOtp => WaitingOtpValue
    case FetchingData => FetchingDataValue
    case SavingData => SavingDataValue
    case Success => SuccessValue
    case Error => ErrorValue
  }

  /** `AppStatus(v)`: the member with value `v`, if any. */
  function Parse(v: string): Option<AppStatus> {
    if v == IdleValue then Some(Idle)
    else if v == StartingValue then Some(Starting)
    else if v == LoggingInValue then Some(LoggingIn)
    else if v == WaitingOtpValue then Some(WaitingOtp)
    else if v == FetchingDataValue then Some(FetchingData)
    else if v == SavingDataValue then Some(SavingData)
    else if v == SuccessValue then Some(Success)
    else if v == ErrorValue then Some(Error)
    else None
  }

  /** The first two characters of each value, which already tell the values apart. */
  lemma ValueHeads()
    ensures |IdleValue| > 1 && IdleValue[0] == 'i' && IdleValue[1] == 'd'
    ensures |StartingValue| > 1 && StartingValue[0] == 's' && StartingValue[1] == 't'
    ensures |LoggingInValue| > 1 && LoggingInValue[0] == 'l' && LoggingInValue[1] == 'o'
    ensures |WaitingOtpValue| > 1 && WaitingOtpValue[0] == 'w' && WaitingOtpValue[1] == 'a'
    ensures |FetchingDataValue| > 1 && FetchingDataValue[0] == 'f' && FetchingDataValue[1] == 'e'
    ensures |SavingDataValue| > 1 && SavingDataValue[0] == 's' && SavingDataValue[1] == 'a'
    ensures |SuccessValue| > 1 && SuccessValue[0] == 's' && SuccessValue[1] == 'u'
    ensures |ErrorValue| > 1 && ErrorValue[0] == 'e' && ErrorValue[1] == 'r'
  {
  }

  /** Every member is recovered from its value, and only member values parse. */
  lemma ParseValue(s: AppStatus, v: string)
    ensures Parse(Value(s)) == Some(s)
    ensures Parse(v).Some? ==> Value(Parse(v).value) == v
  {
    ValueHeads();
  }

  /** Distinct members have distinct values. */
  lemma ValueInjective(a: AppStatus, b: AppStatus)
    requires Value(a) == Value(b)
    ensures a == b
  {
    ParseValue(a, Value(a));
    ParseValue(b, Value(b));
  }

  /** The statuses a finished run can be left in. */
  predicate Terminal(s: AppStatus) {
    s == Idle || s == Error || s == Success
  }
}
