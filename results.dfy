/** Failures raised by `create_mesh` and `Shape.create_3D_mesh`, and the
    Result type that carries them instead of a Python exception. */
module Results {

  datatype Error =
    | ValueError(message: string)        // raised by shape.py for an unknown shape or formation name
    | ZeroDivisionError                  // Python's float division by zero
    | LinspaceNegativeCount(count: int)  // numpy.linspace's ValueError for a negative number of samples,
                                         // kept apart from the unknown-name ValueError of shape.py

  datatype Result<T> = Ok(value: T) | Err(error: Error)
}
