/** Shapes shared by the doctor directory and the doctor card. */
module Types {
  import opened Api

  /** A doctor as the directory lists it and a card shows it. */
  datatype Doctor = Doctor(id: string, name: string, specialization: string, photoUrl: Option<string>)
}
