TestResult.DisplayName,TestResult.Outcome,TestResult.Duration,TestResult.ResourceCount,RandomSeed
RUtils.MakeRVector (well-formedness),Passed,00:00:00.1405951,131490,5
RUtils.PrefixedLiteral (well-formedness),Passed,00:00:00.1027247,46595,5
RUtils.ParseCommaSpaceJoin (correctness),Passed,00:00:00.0860576,187479,5
RUtils.IsTruthy (well-formedness),Passed,00:00:00.0730012,9378,5
RUtils.NamePrefix (well-formedness),Passed,00:00:00.0726355,13417,5
RUtils.NamedRVector (correctness),Passed,00:00:00.0508566,133846,5
RUtils.PrefixedLiteral (correctness),Passed,00:00:00.0470081,90309,5
RUtils.CommaSpaceJoin (correctness),Passed,00:00:00.0417392,128254,5
RUtils.CommaSpaceJoin (well-formedness),Passed,00:00:00.0379036,27824,5
RUtils.ParseBody (well-formedness),Passed,00:00:00.0308607,48497,5
RUtils.Padded (well-formedness),Passed,00:00:00.0276061,46974,5
RUtils.PaddedHasNoComma (correctness),Passed,00:00:00.0204959,41951,5
RUtils.BodyOfLiteral (correctness),Passed,00:00:00.0162167,22277,5
RUtils.PaddedHasNoComma (well-formedness),Passed,00:00:00.0129075,25887,5
RUtils.CommaFree (well-formedness),Passed,00:00:00.0111274,9332,5
RUtils.Body (well-formedness),Passed,00:00:00.0090417,13394,5
RUtils.DropSpace (well-formedness),Passed,00:00:00.0064551,9735,5
