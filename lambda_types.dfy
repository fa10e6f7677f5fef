/** The values of the AWS CDK's Lambda library that the bundling code inspects. */
module LambdaTypes {

  /** A Lambda runtime; the code only reads its `name`. */
  datatype Runtime = Runtime(name: string)

  const PYTHON_3_11: Runtime := Runtime("python3.11")

  /** A Lambda architecture: the two predefined ones, or one made with `Architecture.custom`. */
  datatype LambdaArchitecture = X86_64 | ARM_64 | Custom(customName: string)
  {
    /** `architecture.name` */
    function Name(): string
    {
      match this
      case X86_64 => "x86_64"
      case ARM_64 => "arm64"
      case Custom(n) => n
    }
  }

  /** `aws_ecr_assets.Platform.LINUX_AMD64` and `LINUX_ARM64`. */
  datatype EcrPlatform = LinuxAmd64 | LinuxArm64
}
