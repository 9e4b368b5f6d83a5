/**
 The measurement record submitted for a prediction (`SintomasInput` in
 funcion.py) and the field bounds the request schema enforces before the
 classifier ever sees a record.
 */
module Symptoms {

  /** One patient's nine measurements, in the order the schema declares them.
      The temperature is only ever compared with constants, so it is a `real`. */
  datatype Symptoms = Symptoms(
    age: int,               // years
    systolic: int,          // systolic blood pressure, mmHg
    diastolic: int,         // diastolic blood pressure, mmHg
    heartRate: int,         // beats per minute
    temperature: real,      // degrees Celsius
    symptomDays: int,       // how long the symptoms have lasted, in days
    hasAllergies: bool,
    priorMedication: bool,
    painLevel: int          // reported pain on a 0-10 scale
  )
  {
    /** The inclusive bounds of every numeric field of the schema. */
    predicate Valid() {
      && 0 <= age <= 120
      && 60 <= systolic <= 250
      && 40 <= diastolic <= 150
      && 40 <= heartRate <= 200
      && 35.0 <= temperature <= 42.0
      && 0 <= symptomDays <= 365
      && 0 <= painLevel <= 10
    }
  }
}
