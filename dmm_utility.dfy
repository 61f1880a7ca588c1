/**
 * iC3_DMM_UtilityFunctions.cpp: the switch functions that turn the
 * transducer-type, time-format and date-format enumerations into labels and
 * Qt format strings. The enumerations are plain C++ enums, so any integer
 * can reach a switch; each one is modelled over int with the declared
 * enumerator values.
 */
module DmmUtility {

  // eDateFormats
  const DateFormatDdMmYy: int := 0
  const DateFormatMmDdYy: int := 1

  // eTimeFormats
  const TimeFormatNotSet: int := -1
  const TimeFormat24Hour: int := 0
  const TimeFormat12Hour: int := 1

  // eIC3_TransducerType (there is no enumerator with value 2)
  const TransducerTypeNotSet: int := -1
  const TemperatureTransducer: int := 0
  const VoltageTransducer: int := 1
  const HumidityTransducer: int := 3
  const CurrentTransducer: int := 4
  const PressureTransducer: int := 5
  const DigitalTransducer: int := 6
  const LumensTransducer: int := 7
  const DbTransducer: int := 8
  const LoadcellTransducer: int := 9
  const AccelerationTransducer: int := 10
  const TiltTransducer: int := 11
  const FrequencyTransducer: int := 12
  const ResistanceTransducer: int := 13

  /** The transducer types the label switch names. */
  const LabelledTransducerTypes: set<int> := {0, 1, 3, 4, 5, 6, 7, 8, 9, 10, 11, 12, 13}

  const UnknownTransducerLabel: string := "Unknown"

  /** getTransducerTypeString, with tr() as the identity. */
  function TransducerTypeString(transducerType: int): (name: string)
    ensures name == UnknownTransducerLabel <==> transducerType !in LabelledTransducerTypes
    ensures name != ""
  {
    if transducerType == TemperatureTransducer then "Temp"
    else if transducerType == VoltageTransducer then "Volt"
    else if transducerType == HumidityTransducer then "Humidity"
    else if transducerType == CurrentTransducer then "Current"
    else if transducerType == PressureTransducer then "Pressure"
    else if transducerType == DigitalTransducer then "Digital"
    else if transducerType == LumensTransducer then "Lumens"
    else if transducerType == DbTransducer then "db"
    else if transducerType == LoadcellTransducer then "Loadcell"
    else if transducerType == AccelerationTransducer then "Accel"
    else if transducerType == TiltTransducer then "Tilt"
    else if transducerType == FrequencyTransducer then "Frequency"
    else if transducerType == ResistanceTransducer then "Resistance"
    else UnknownTransducerLabel
  }

  /** Distinct labelled types get distinct labels, so a label names its transducer type. */
  lemma TransducerLabelsDistinct(a: int, b: int)
    requires a in LabelledTransducerTypes && b in LabelledTransducerTypes
    ensures TransducerTypeString(a) == TransducerTypeString(b) <==> a == b
  {
  }

  /** The not-set value and the unused value 2 fall to the default. */
  lemma UnlabelledTransducerTypes()
    ensures TransducerTypeString(TransducerTypeNotSet) == UnknownTransducerLabel
    ensures TransducerTypeString(2) == UnknownTransducerLabel
  {
  }

  /** convertToTimeFormatString. */
  function TimeFormatString(timeFormat: int): (format: string)
    ensures format == "h:mm ap" <==> timeFormat == TimeFormat12Hour
    ensures timeFormat != TimeFormat12Hour ==> format == "hh:mm"
  {
    if timeFormat == TimeFormat12Hour then "h:mm ap" else "hh:mm"
  }

  /** convertToDateFormatString: values outside the enumeration leave the string empty. */
  function DateFormatString(dateFormat: int): (format: string)
    ensures format == "" <==> dateFormat != DateFormatMmDdYy && dateFormat != DateFormatDdMmYy
    ensures format != "" ==> |format| == 10 && format[2] == '/' && format[5] == '/' && format[6..] == "yyyy"
    ensures dateFormat == DateFormatMmDdYy ==> format[..2] == "MM" && format[3..5] == "dd"
    ensures dateFormat == DateFormatDdMmYy ==> format[..2] == "dd" && format[3..5] == "MM"
  {
    if dateFormat == DateFormatMmDdYy then "MM/dd/yyyy"
    else if dateFormat == DateFormatDdMmYy then "dd/MM/yyyy"
    else ""
  }

  /** convertToFilePathTimeFormatString: the argument is ignored. */
  function FilePathTimeFormatString(timeFormat: int): (format: string)
    ensures |format| == 8 && format[2] == '.' && format[5] == '.'
    ensures ':' !in format
  {
    "hh.mm.ss"
  }

  lemma FilePathTimeIgnoresArgument(a: int, b: int)
    ensures FilePathTimeFormatString(a) == FilePathTimeFormatString(b)
  {
  }

  /** convertToFilePathDateFormatString. */
  function FilePathDateFormatString(dateFormat: int): (format: string)
    ensures format == "" <==> dateFormat != DateFormatMmDdYy && dateFormat != DateFormatDdMmYy
    ensures format != "" ==> |format| == 10 && format[2] == '-' && format[5] == '-' && format[6..] == "yyyy"
    ensures dateFormat == DateFormatMmDdYy ==> format[..2] == "MM" && format[3..5] == "dd"
    ensures dateFormat == DateFormatDdMmYy ==> format[..2] == "dd" && format[3..5] == "MM"
  {
    if dateFormat == DateFormatMmDdYy then "MM-dd-yyyy"
    else if dateFormat == DateFormatDdMmYy then "dd-MM-yyyy"
    else ""
  }

  /** Every from replaced by to. */
  function ReplaceChar(s: string, from: char, to: char): (r: string)
    ensures |r| == |s|
    ensures forall i :: 0 <= i < |s| ==> r[i] == if s[i] == from then to else s[i]
  {
    if s == [] then [] else [if s[0] == from then to else s[0]] + ReplaceChar(s[1..], from, to)
  }

  /** The file-path date format is the display format with '/' made '-', so it can name a file. */
  lemma FilePathDateIsDisplayDate(dateFormat: int)
    ensures FilePathDateFormatString(dateFormat) == ReplaceChar(DateFormatString(dateFormat), '/', '-')
    ensures '/' !in FilePathDateFormatString(dateFormat)
  {
    var display := DateFormatString(dateFormat);
    var path := FilePathDateFormatString(dateFormat);
    assert |path| == |display|;
    assert forall i :: 0 <= i < |display| ==> path[i] == if display[i] == '/' then '-' else display[i];
  }
}
