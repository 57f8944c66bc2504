/** The vocabulary shared by the judge and the web side. */
module Schemas {
  datatype Verdict = AC | WA | TLE | MLE | OLE | RE | CE
}
