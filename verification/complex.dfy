/** Complex numbers over the reals, standing in for std::complex<double> and
    Python's complex type. Only the operations the escape loop uses are given. */
module Plane {

  datatype Complex = Complex(re: real, im: real)

  /** The origin, where Mandelbrot iteration starts. */
  const Zero := Complex(0.0, 0.0)

  function Add(a: Complex, b: Complex): Complex
  {
    Complex(a.re + b.re, a.im + b.im)
  }

  function Mul(a: Complex, b: Complex): Complex
  {
    Complex(a.re * b.re - a.im * b.im, a.re * b.im + a.im * b.re)
  }

  /** The squared magnitude |z|^2; comparing it with 4 replaces comparing |z| with 2. */
  function NormSq(z: Complex): real
  {
    z.re * z.re + z.im * z.im
  }

  /** The bail-out test `abs(z) <= 2`, stated without a square root. */
  predicate WithinBailout(z: Complex)
  {
    NormSq(z) <= 4.0
  }
}
