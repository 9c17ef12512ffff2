/** The three transport modes every estimator reports on, and the
    bus/train/flight record the estimators return. */
module Modes {

  /** One value per transport mode, in the order bus, train, flight. */
  datatype ModeTable<T> = ModeTable(bus: T, train: T, flight: T)
}
